/** The expression evaluator of `src/util/eval.rs`: parenthesised groups are
    evaluated first, then three passes over the remaining tokens reduce
    `* / %`, then `+ -`, then the comparisons, each pass folding an operator
    with its two neighbours into one token. */
module Eval {
  import opened Common
  import opened EvalLexer

  /** Why an evaluation aborts (each is a `panic!` in the source). */
  datatype EvalError =
    | EmptyExpression     // nothing to evaluate
    | OverClosing         // a `)` with no open group
    | NoValue             // a pass indexes an empty token list
    | MissingOperand      // an operator first in the list, or without a right operand
    | TypeMismatch        // operands of different token types
    | Invalid             // an operator the operands' type does not support
    | NotOperand          // operands that are not data ("wong")
    | NotANumber          // an integer token whose text does not parse
    | DivideByZero        // integer `/` or `%` by zero
    | EvalLeftover        // more than one token left after the three passes
    | LexFailed(e: MathLexError)

  /** The f64 arithmetic and comparisons, which this model leaves abstract:
      `arith` gives the printed result of `* / % + -` on two float texts,
      `compare` the outcome of a comparison. */
  datatype Floats = Floats(
    arith: (MathTokenType, string, string) -> string,
    compare: (MathTokenType, string, string) -> bool)

  /** The three passes, in the order they run. */
  datatype Tier = MulDiv | AddSub | Comparison

  predicate InTier(t: Tier, k: MathTokenType) {
    match t
    case MulDiv => k == Multiplication || k == Division || k == Modulos
    case AddSub => k == Addition || k == Subtraction
    case Comparison =>
      k == GreaterThan || k == LessThan || k == GreaterThanOrEqualTo
      || k == LessThanOrEqualTo || k == EqualTo || k == NotEqualTo
  }

  predicate IsComparison(k: MathTokenType) { InTier(Comparison, k) }

  /** `bool::to_string()`. */
  function BoolText(b: bool): (s: string)
    ensures s == "true" || s == "false"
    ensures b <==> s == "true"
  {
    if b then "true" else "false"
  }

  function Abs(n: int): nat { if n < 0 then -n else n }

  /** Rust's integer `/`: the quotient rounded toward zero (Dafny's `/`
      rounds so that the remainder is never negative). */
  function TruncDiv(a: int, b: int): int
    requires b != 0
  {
    if (a < 0) == (b < 0) then Abs(a) / Abs(b) else -(Abs(a) / Abs(b))
  }

  /** Rust's integer `%`: the remainder of the magnitudes, carrying the
      sign of the dividend. */
  function TruncRem(a: int, b: int): int
    requires b != 0
  {
    if a < 0 then -(Abs(a) % Abs(b)) else Abs(a) % Abs(b)
  }

  /** An integer operator applied to two parsed operands: the token type and
      text of the result. */
  function IntResult(op: MathTokenType, a: int, b: int): Result<(MathTokenType, string), EvalError> {
    match op
    case Multiplication => Ok((Integer, IntToString(a * b)))
    case Division => if b == 0 then Err(DivideByZero) else Ok((Integer, IntToString(TruncDiv(a, b))))
    case Modulos => if b == 0 then Err(DivideByZero) else Ok((Integer, IntToString(TruncRem(a, b))))
    case Addition => Ok((Integer, IntToString(a + b)))
    case Subtraction => Ok((Integer, IntToString(a - b)))
    case GreaterThan => Ok((Boolean, BoolText(a > b)))
    case LessThan => Ok((Boolean, BoolText(a < b)))
    case GreaterThanOrEqualTo => Ok((Boolean, BoolText(a >= b)))
    case LessThanOrEqualTo => Ok((Boolean, BoolText(a <= b)))
    case EqualTo => Ok((Boolean, BoolText(a == b)))
    case NotEqualTo => Ok((Boolean, BoolText(a != b)))
    case _ => Err(NotOperand)
  }

  /** The outcomes of an integer operator: division by zero exactly for `/`
      or `%` by 0, no operator exactly for a kind outside the three passes,
      and otherwise a boolean exactly for a comparison and an integer else. */
  lemma IntResultOutcomes(op: MathTokenType, a: int, b: int)
    ensures var r := IntResult(op, a, b);
      && (r.Err? && r.error.DivideByZero? <==> (op == Division || op == Modulos) && b == 0)
      && (r.Err? ==> r.error.DivideByZero? || r.error.NotOperand?)
      && (r.Err? && r.error.NotOperand? <==> !(InTier(MulDiv, op) || InTier(AddSub, op) || IsComparison(op)))
      && (r.Ok? ==> (r.value.0 == Boolean <==> IsComparison(op)) && (r.value.0 == Integer <==> !IsComparison(op)))
  {
    hide IntToString; hide BoolText; hide TruncDiv; hide TruncRem;
    match op
    case Multiplication =>
    case Division =>
    case Modulos =>
    case Addition =>
    case Subtraction =>
    case GreaterThan =>
    case LessThan =>
    case GreaterThanOrEqualTo =>
    case LessThanOrEqualTo =>
    case EqualTo =>
    case NotEqualTo =>
    case _ =>
  }

  /** Folds `first op last` into one token. The result keeps the position of
      `last`, whose token the source reuses. */
  function Combine(op: MathTokenType, first: MathToken, last: MathToken, fl: Floats): (r: Result<MathToken, EvalError>)
    ensures first.tokenType != last.tokenType ==> r == Err(TypeMismatch)
    ensures r.Ok? ==> r.value.x == last.x && r.value.y == last.y && r.value.IsDataType()
  {
    if first.tokenType != last.tokenType then Err(TypeMismatch)
    else match first.tokenType
      case Integer =>
        (match (ParseInt(first.value), ParseInt(last.value))
         case (Some(a), Some(b)) =>
           var (k, v) :- IntResult(op, a, b);
           Ok(last.(tokenType := k, value := v))
         case _ => Err(NotANumber))
      case FloatingPoint =>
        if IsComparison(op) then Ok(last.(tokenType := Boolean, value := BoolText(fl.compare(op, first.value, last.value))))
        else Ok(last.(value := fl.arith(op, first.value, last.value)))
      case String =>
        if op == Addition then Ok(last.(value := first.value + last.value))
        else if op == EqualTo then Ok(last.(tokenType := Boolean, value := BoolText(first.value == last.value)))
        else if op == NotEqualTo then Ok(last.(tokenType := Boolean, value := BoolText(first.value != last.value)))
        else Err(Invalid)
      case Boolean =>
        if op == EqualTo then Ok(last.(tokenType := Boolean, value := BoolText(first.value == last.value)))
        else if op == NotEqualTo then Ok(last.(tokenType := Boolean, value := BoolText(first.value != last.value)))
        else Err(Invalid)
      case _ => Err(NotOperand)
  }

  /** Where the folded token goes back: just before the operator's old place,
      except that `==` and `!=` on strings and booleans use the index the
      `+ -` pass stopped at (`addIdx`) instead of the comparison pass's own. */
  function Slot(op: MathTokenType, kind: MathTokenType, i: int, addIdx: int): int {
    if (op == EqualTo || op == NotEqualTo) && (kind == String || kind == Boolean) then addIdx - 1
    else i - 1
  }

  /** Removes the operator at `i` and its two neighbours and inserts the
      folded token at its slot. */
  function Reduce(list: seq<MathToken>, i: int, addIdx: int, fl: Floats): (r: Result<seq<MathToken>, EvalError>)
    requires 0 <= i < |list|
    ensures r.Ok? ==> |r.value| == |list| - 2
  {
    if i == 0 || i + 1 >= |list| then Err(MissingOperand)
    else
      var rest := list[..i - 1] + list[i + 2..];
      var tok :- Combine(list[i].tokenType, list[i - 1], list[i + 1], fl);
      var pos := Slot(list[i].tokenType, list[i - 1].tokenType, i, addIdx);
      if pos < 0 || pos > |rest| then Err(MissingOperand)
      else Ok(rest[..pos] + [tok] + rest[pos..])
  }

  /** One pass, from the top of its `while` loop with the list, the index and
      the count of wrap-arounds since the last fold. The pass stops when one
      token is left, or when it has wrapped twice without folding; it yields
      the list and the index it stopped at. */
  function TierLoop(t: Tier, list: seq<MathToken>, idx: int, rounds: int, addIdx: int, fl: Floats): Result<(seq<MathToken>, int), EvalError>
    requires -1 <= idx && 0 <= rounds <= 2
    decreases |list|, 2 - rounds, |list| - idx
  {
    if |list| == 1 then Ok((list, idx))
    else if rounds > 1 then Ok((list, idx + 1))
    else
      var wrap := idx + 1 >= |list|;
      var i := if wrap then 0 else idx + 1;
      var r := if wrap then rounds + 1 else rounds;
      if i >= |list| then Err(NoValue)
      else if InTier(t, list[i].tokenType) then
        var next :- Reduce(list, i, addIdx, fl);
        TierLoop(t, next, i, 0, addIdx, fl)
      else TierLoop(t, list, i, r, addIdx, fl)
  }

  /** The three passes and the final check that one token is left. */
  function Tiers(now: seq<MathToken>, fl: Floats): Result<MathToken, EvalError> {
    var (l1, _) :- TierLoop(MulDiv, now, -1, 0, 0, fl);
    var (l2, addIdx) :- TierLoop(AddSub, l1, -1, 0, 0, fl);
    var (l3, _) :- TierLoop(Comparison, l2, -1, 0, addIdx, fl);
    if |l3| > 1 then Err(EvalLeftover)
    else if |l3| == 0 then Err(NoValue)
    else Ok(l3[0])
  }

  predicate GroupState(i: int, temp: seq<MathToken>, scope: int) {
    0 <= scope && (scope == 0 ==> temp == []) && (scope > 0 ==> |temp| < i)
  }

  /** The grouping loop from token `i` on: tokens inside a parenthesis at
      depth zero are gathered in `temp` and replaced by their evaluation when
      the group closes; the rest go to `now`. A group still open at the end
      is dropped. */
  function PartitionFrom(to: seq<MathToken>, i: nat, temp: seq<MathToken>, scope: int, now: seq<MathToken>, fl: Floats): Result<seq<MathToken>, EvalError>
    requires i <= |to| && GroupState(i, temp, scope)
    decreases |to|, 0, |to| - i
  {
    if i == |to| then Ok(now)
    else
      var t := to[i];
      if t.tokenType == ParenthesisClose then
        if scope - 1 > 0 then PartitionFrom(to, i + 1, temp + [t], scope - 1, now, fl)
        else if scope - 1 == 0 then
          var v :- EvalTokens(temp, fl);
          PartitionFrom(to, i + 1, [], 0, now + [v], fl)
        else Err(OverClosing)
      else if t.tokenType == ParenthesisOpen then
        PartitionFrom(to, i + 1, if scope > 0 then temp + [t] else temp, scope + 1, now, fl)
      else if scope > 0 then PartitionFrom(to, i + 1, temp + [t], scope, now, fl)
      else PartitionFrom(to, i + 1, temp, scope, now + [t], fl)
  }

  /** `eval`: the value of a token list. */
  function EvalTokens(to: seq<MathToken>, fl: Floats): Result<MathToken, EvalError>
    decreases |to|, 1
  {
    if |to| == 0 then Err(EmptyExpression)
    else
      var now :- PartitionFrom(to, 0, [], 0, [], fl);
      Tiers(now, fl)
  }

  /** `eval_string`: lexes the text and evaluates it. */
  function EvalText(text: string, fl: Floats): Result<MathToken, EvalError> {
    if |text| == 0 then Err(EmptyExpression)
    else match LexMath(text)
      case Err(e) => Err(LexFailed(e))
      case Ok(ts) => EvalTokens(ts, fl)
  }

  // ---------------------------------------------------------------------
  // The evaluator as the source runs it: loops over a local token list.

  /** One pass of the evaluator's `while` loop. */
  method RunTier(t: Tier, start: seq<MathToken>, addIdx: int, fl: Floats) returns (r: Result<(seq<MathToken>, int), EvalError>)
    ensures r == TierLoop(t, start, -1, 0, addIdx, fl)
  {
    var list := start;
    var idx := -1;
    var rounds := 0;
    while |list| != 1
      invariant -1 <= idx && 0 <= rounds <= 2
      invariant TierLoop(t, list, idx, rounds, addIdx, fl) == TierLoop(t, start, -1, 0, addIdx, fl)
      decreases |list|, 2 - rounds, |list| - idx
    {
      idx := idx + 1;
      if rounds > 1 {
        return Ok((list, idx));
      } else if idx >= |list| {
        idx := 0;
        rounds := rounds + 1;
      }
      if idx >= |list| {
        return Err(NoValue);
      }
      var part := list[idx];
      if InTier(t, part.tokenType) {
        ghost var before := list;
        rounds := 0;
        if idx == 0 || idx + 1 >= |list| {
          return Err(MissingOperand);
        }
        var first := list[idx - 1];
        var last := list[idx + 1];
        list := list[..idx - 1] + list[idx + 2..];
        var folded := Combine(part.tokenType, first, last, fl);
        if folded.Err? {
          return Err(folded.error);
        }
        var pos := Slot(part.tokenType, first.tokenType, idx, addIdx);
        if pos < 0 || pos > |list| {
          return Err(MissingOperand);
        }
        list := list[..pos] + [folded.value] + list[pos..];
        assert Reduce(before, idx, addIdx, fl) == Ok(list);
      }
    }
    return Ok((list, idx));
  }

  /** `eval`: groups, then the three passes. */
  method Evaluate(to: seq<MathToken>, fl: Floats) returns (r: Result<MathToken, EvalError>)
    ensures r == EvalTokens(to, fl)
    decreases |to|
  {
    if |to| == 0 {
      return Err(EmptyExpression);
    }
    var temp: seq<MathToken> := [];
    var scope := 0;
    var now: seq<MathToken> := [];
    for i := 0 to |to|
      invariant GroupState(i, temp, scope)
      invariant PartitionFrom(to, i, temp, scope, now, fl) == PartitionFrom(to, 0, [], 0, [], fl)
    {
      var t := to[i];
      if t.tokenType == ParenthesisClose {
        scope := scope - 1;
        if scope > 0 {
          temp := temp + [t];
        } else if scope == 0 {
          var v := Evaluate(temp, fl);
          if v.Err? {
            return Err(v.error);
          }
          now := now + [v.value];
          temp := [];
        } else {
          return Err(OverClosing);
        }
      } else if t.tokenType == ParenthesisOpen {
        if scope > 0 {
          temp := temp + [t];
        }
        scope := scope + 1;
      } else if scope > 0 {
        temp := temp + [t];
      } else {
        now := now + [t];
      }
    }
    var r1 := RunTier(MulDiv, now, 0, fl);
    if r1.Err? {
      return Err(r1.error);
    }
    var r2 := RunTier(AddSub, r1.value.0, 0, fl);
    if r2.Err? {
      return Err(r2.error);
    }
    var r3 := RunTier(Comparison, r2.value.0, r2.value.1, fl);
    if r3.Err? {
      return Err(r3.error);
    }
    var left := r3.value.0;
    if |left| > 1 {
      return Err(EvalLeftover);
    } else if |left| == 0 {
      return Err(NoValue);
    }
    return Ok(left[0]);
  }

  /** `eval_string`. */
  method EvaluateText(text: string, fl: Floats) returns (r: Result<MathToken, EvalError>)
    ensures r == EvalText(text, fl)
  {
    if |text| == 0 {
      return Err(EmptyExpression);
    }
    var lexed := LexFresh(text);
    if lexed.Err? {
      return Err(LexFailed(lexed.error));
    }
    r := Evaluate(lexed.value, fl);
  }

  // ---------------------------------------------------------------------
  // Grouping

  predicate IsParen(t: MathToken) { t.tokenType == ParenthesisOpen || t.tokenType == ParenthesisClose }

  /** Tokens outside any parenthesis are passed on unchanged and in order. */
  lemma {:induction false} PartitionPlain(to: seq<MathToken>, i: nat, now: seq<MathToken>, fl: Floats)
    requires i <= |to| && forall k :: i <= k < |to| ==> !IsParen(to[k])
    ensures PartitionFrom(to, i, [], 0, now, fl) == Ok(now + to[i..])
    decreases |to| - i
  {
    if i < |to| {
      PartitionPlain(to, i + 1, now + [to[i]], fl);
      assert now + [to[i]] + to[i + 1..] == now + to[i..];
    } else {
      assert now + to[i..] == now;
    }
  }

  // ---------------------------------------------------------------------
  // Single iterations of a pass

  lemma PassSkip(t: Tier, list: seq<MathToken>, idx: int, rounds: int, addIdx: int, fl: Floats)
    requires -1 <= idx && 0 <= rounds <= 1 && |list| != 1
    requires idx + 1 < |list| && !InTier(t, list[idx + 1].tokenType)
    ensures TierLoop(t, list, idx, rounds, addIdx, fl) == TierLoop(t, list, idx + 1, rounds, addIdx, fl)
  {
  }

  lemma PassWrap(t: Tier, list: seq<MathToken>, idx: int, rounds: int, addIdx: int, fl: Floats)
    requires -1 <= idx && 0 <= rounds <= 1 && |list| > 1
    requires idx + 1 >= |list| && !InTier(t, list[0].tokenType)
    ensures TierLoop(t, list, idx, rounds, addIdx, fl) == TierLoop(t, list, 0, rounds + 1, addIdx, fl)
  {
  }

  lemma PassFold(t: Tier, list: seq<MathToken>, idx: int, rounds: int, addIdx: int, fl: Floats, next: seq<MathToken>)
    requires -1 <= idx && 0 <= rounds <= 1 && |list| != 1
    requires idx + 1 < |list| && InTier(t, list[idx + 1].tokenType)
    requires Reduce(list, idx + 1, addIdx, fl) == Ok(next)
    ensures TierLoop(t, list, idx, rounds, addIdx, fl) == TierLoop(t, next, idx + 1, 0, addIdx, fl)
  {
  }

  lemma PassFoldFails(t: Tier, list: seq<MathToken>, idx: int, rounds: int, addIdx: int, fl: Floats)
    requires -1 <= idx && 0 <= rounds <= 1 && |list| != 1
    requires idx + 1 < |list| && InTier(t, list[idx + 1].tokenType)
    requires Reduce(list, idx + 1, addIdx, fl).Err?
    ensures TierLoop(t, list, idx, rounds, addIdx, fl) == Err(Reduce(list, idx + 1, addIdx, fl).error)
  {
  }

  lemma PassDone(t: Tier, list: seq<MathToken>, idx: int, rounds: int, addIdx: int, fl: Floats)
    requires -1 <= idx && 0 <= rounds <= 2 && |list| == 1
    ensures TierLoop(t, list, idx, rounds, addIdx, fl) == Ok((list, idx))
  {
  }

  /** A pass over a list whose first operator is at index 1 folds it first
      and goes on from the folded token's right neighbour. */
  lemma PassFoldsFront(t: Tier, list: seq<MathToken>, addIdx: int, fl: Floats, c: MathToken)
    requires |list| >= 3 && !InTier(t, list[0].tokenType) && InTier(t, list[1].tokenType)
    requires Combine(list[1].tokenType, list[0], list[2], fl) == Ok(c)
    requires Slot(list[1].tokenType, list[0].tokenType, 1, addIdx) == 0
    ensures TierLoop(t, list, -1, 0, addIdx, fl) == TierLoop(t, [c] + list[3..], 1, 0, addIdx, fl)
  {
    hide TierLoop;
    ReduceFront(list, addIdx, fl, c);
    PassSkip(t, list, -1, 0, addIdx, fl);
    PassFold(t, list, 0, 0, addIdx, fl, [c] + list[3..]);
  }

  lemma NoOperatorsInThree(t: Tier, x: MathToken, y: MathToken, z: MathToken)
    requires !InTier(t, x.tokenType) && !InTier(t, y.tokenType) && !InTier(t, z.tokenType)
    ensures NoOperators(t, [x, y, z])
  {
    forall k | 0 <= k < 3 ensures !InTier(t, [x, y, z][k].tokenType) {
      assert k == 0 || k == 1 || k == 2;
    }
  }

  /** Folding either operation of five tokens leaves three. */
  lemma FoldsOfFive(a: MathToken, o1: MathToken, b: MathToken, o2: MathToken, c: MathToken, v: MathToken)
    ensures [v] + [a, o1, b, o2, c][3..] == [v, o2, c]
    ensures [a, o1, b, o2, c][..2] + [v] + [a, o1, b, o2, c][5..] == [a, o1, v]
  {
    assert [a, o1, b, o2, c][3..] == [o2, c];
    assert [a, o1, b, o2, c][..2] == [a, o1];
  }

  /** Folding the front of seven tokens leaves five. */
  lemma FrontOfSeven(a: MathToken, o1: MathToken, b: MathToken, o2: MathToken, c: MathToken,
                     o3: MathToken, d: MathToken, ab: MathToken)
    ensures [ab] + [a, o1, b, o2, c, o3, d][3..] == [ab, o2, c, o3, d]
  {
    assert [a, o1, b, o2, c, o3, d][3..] == [o2, c, o3, d];
  }

  // ---------------------------------------------------------------------
  // What a pass leaves behind

  predicate NoOperators(t: Tier, list: seq<MathToken>) {
    forall k :: 0 <= k < |list| ==> !InTier(t, list[k].tokenType)
  }

  /** What a pass has seen since its last fold: in the first wrap-around the
      tokens up to `idx`, and the whole list once it has wrapped twice. */
  predicate Examined(t: Tier, list: seq<MathToken>, idx: int, rounds: int) {
    (rounds == 1 ==> forall k :: 0 <= k <= idx && k < |list| ==> !InTier(t, list[k].tokenType))
    && (rounds == 2 ==> idx == 0 && NoOperators(t, list))
  }

  /** What a successful pass over `list` guarantees about its outcome `r`. */
  predicate Leaves(t: Tier, list: seq<MathToken>, r: Result<(seq<MathToken>, int), EvalError>) {
    r.Ok? ==>
      |r.value.0| <= |list| && (|list| - |r.value.0|) % 2 == 0
      && (|r.value.0| == 1 || NoOperators(t, r.value.0))
      && (|r.value.0| != 1 ==> r.value.1 == 1)
  }

  lemma LeavesShorter(t: Tier, list: seq<MathToken>, next: seq<MathToken>, r: Result<(seq<MathToken>, int), EvalError>)
    requires |next| == |list| - 2 && Leaves(t, next, r)
    ensures Leaves(t, list, r)
  {
  }

  lemma {:induction false} PassLeavesFrom(t: Tier, list: seq<MathToken>, idx: int, rounds: int, addIdx: int, fl: Floats)
    requires -1 <= idx && 0 <= rounds <= 2 && Examined(t, list, idx, rounds)
    ensures Leaves(t, list, TierLoop(t, list, idx, rounds, addIdx, fl))
    decreases |list|, 2 - rounds, |list| - idx
  {
    if |list| == 1 {
    } else if rounds > 1 {
      assert idx == 0;
    } else {
      var wrap := idx + 1 >= |list|;
      var i := if wrap then 0 else idx + 1;
      var r := if wrap then rounds + 1 else rounds;
      if i >= |list| {
      } else if InTier(t, list[i].tokenType) {
        var next := Reduce(list, i, addIdx, fl);
        if next.Ok? {
          PassLeavesFrom(t, next.value, i, 0, addIdx, fl);
          LeavesShorter(t, list, next.value, TierLoop(t, next.value, i, 0, addIdx, fl));
          assert TierLoop(t, list, idx, rounds, addIdx, fl) == TierLoop(t, next.value, i, 0, addIdx, fl);
        }
      } else {
        assert Examined(t, list, i, r);
        assert TierLoop(t, list, idx, rounds, addIdx, fl) == TierLoop(t, list, i, r, addIdx, fl);
        PassLeavesFrom(t, list, i, r, addIdx, fl);
      }
    }
  }

  /** A pass that succeeds leaves one token, or none of the operators it
      folds; it removes tokens two at a time; and unless one token is left it
      stops at index 1, after wrapping around twice. */
  lemma PassLeaves(t: Tier, list: seq<MathToken>, addIdx: int, fl: Floats)
    ensures var r := TierLoop(t, list, -1, 0, addIdx, fl);
      r.Ok? ==>
        |r.value.0| <= |list| && (|list| - |r.value.0|) % 2 == 0
        && (|r.value.0| == 1 || NoOperators(t, r.value.0))
        && (|r.value.0| != 1 ==> r.value.1 == 1)
  {
    PassLeavesFrom(t, list, -1, 0, addIdx, fl);
  }

  /** A pass over a list holding none of its operators changes nothing. */
  lemma {:induction false} PassWithoutOperators(t: Tier, list: seq<MathToken>, idx: int, rounds: int, addIdx: int, fl: Floats)
    requires -1 <= idx && 0 <= rounds <= 2 && (rounds == 2 ==> idx == 0)
    requires |list| >= 2 && NoOperators(t, list)
    ensures TierLoop(t, list, idx, rounds, addIdx, fl) == Ok((list, 1))
    decreases 2 - rounds, |list| - idx
  {
    if rounds <= 1 {
      var wrap := idx + 1 >= |list|;
      PassWithoutOperators(t, list, if wrap then 0 else idx + 1, if wrap then rounds + 1 else rounds, addIdx, fl);
    }
  }

  // ---------------------------------------------------------------------
  // Folding two operands

  /** Rust's `/` and `%` on integers: the quotient times the divisor plus the
      remainder is the dividend, the remainder is smaller than the divisor
      and takes the sign of the dividend, and the quotient rounds toward 0. */
  lemma TruncDivRem(a: int, b: int)
    requires b != 0
    ensures TruncDiv(a, b) * b + TruncRem(a, b) == a
    ensures Abs(TruncRem(a, b)) < Abs(b)
    ensures TruncRem(a, b) != 0 ==> (TruncRem(a, b) < 0 <==> a < 0)
    ensures Abs(TruncDiv(a, b)) * Abs(b) <= Abs(a)
  {
    TruncIdentity(a, b);
    TruncRemBounds(a, b);
    TruncDivBound(a, b);
  }

  lemma TruncIdentity(a: int, b: int)
    requires b != 0
    ensures TruncDiv(a, b) * b + TruncRem(a, b) == a
  {
    var A: int, B: int := Abs(a), Abs(b);
    var q: int, m: int := A / B, A % B;
    MagnitudeDivMod(A, B);
    assert TruncDiv(a, b) == (if (a < 0) == (b < 0) then q else -q);
    assert TruncRem(a, b) == (if a < 0 then -m else m);
    ProductBySign(TruncDiv(a, b), b, q, B);
  }

  lemma TruncRemBounds(a: int, b: int)
    requires b != 0
    ensures Abs(TruncRem(a, b)) < Abs(b)
    ensures TruncRem(a, b) != 0 ==> (TruncRem(a, b) < 0 <==> a < 0)
  {
    MagnitudeDivMod(Abs(a), Abs(b));
  }

  lemma TruncDivBound(a: int, b: int)
    requires b != 0
    ensures Abs(TruncDiv(a, b)) * Abs(b) <= Abs(a)
  {
    MagnitudeDivMod(Abs(a), Abs(b));
    assert Abs(TruncDiv(a, b)) == Abs(a) / Abs(b);
  }

  lemma MagnitudeDivMod(A: nat, B: nat)
    requires B > 0
    ensures A == (A / B) * B + A % B && 0 <= A % B < B
  {
  }

  /** Multiplying by a value or by its negation: the product's magnitude
      stays the same and its sign follows the two signs. */
  lemma ProductBySign(t: int, b: int, q: int, B: int)
    requires t == q || t == -q
    requires b == B || b == -B
    ensures t * b == (if (t == q) == (b == B) then q * B else -(q * B))
  {
    NegatedProduct(q, B);
    NegatedProduct(-q, B);
  }

  lemma NegatedProduct(x: int, y: int)
    ensures (-x) * y == -(x * y) && x * (-y) == -(x * y)
  {
  }

  /** Integer arithmetic: the folded token is an integer whose text reads
      back as the exact result; integer `/` and `%` by zero abort. */
  lemma IntegerArithmetic(op: MathTokenType, first: MathToken, last: MathToken, a: int, b: int, fl: Floats)
    requires first.tokenType == Integer && last.tokenType == Integer
    requires ParseInt(first.value) == Some(a) && ParseInt(last.value) == Some(b)
    requires InTier(MulDiv, op) || InTier(AddSub, op)
    ensures var r := Combine(op, first, last, fl);
      && ((op == Division || op == Modulos) && b == 0 <==> r == Err(DivideByZero))
      && (r.Ok? ==> r.value.tokenType == Integer && r.value.x == last.x && r.value.y == last.y)
      && (op == Multiplication ==> r.Ok? && ParseInt(r.value.value) == Some(a * b))
      && (op == Addition ==> r.Ok? && ParseInt(r.value.value) == Some(a + b))
      && (op == Subtraction ==> r.Ok? && ParseInt(r.value.value) == Some(a - b))
      && (op == Division && b != 0 ==> r.Ok? && ParseInt(r.value.value) == Some(TruncDiv(a, b)))
      && (op == Modulos && b != 0 ==> r.Ok? && ParseInt(r.value.value) == Some(TruncRem(a, b)))
  {
    hide Combine; hide ParseInt; hide IntToString;
    CombineIntegers(op, first, last, a, b, fl);
    match op
    case Multiplication => ParseIntToString(a * b);
    case Addition => ParseIntToString(a + b);
    case Subtraction => ParseIntToString(a - b);
    case Division => if b != 0 { ParseIntToString(TruncDiv(a, b)); }
    case Modulos => if b != 0 { ParseIntToString(TruncRem(a, b)); }
  }

  /** Folding two integer tokens is the integer operation on their values,
      kept at the right operand's position. */
  lemma CombineIntegers(op: MathTokenType, first: MathToken, last: MathToken, a: int, b: int, fl: Floats)
    requires first.tokenType == Integer && last.tokenType == Integer
    requires ParseInt(first.value) == Some(a) && ParseInt(last.value) == Some(b)
    ensures Combine(op, first, last, fl) == match IntResult(op, a, b)
      case Ok(kv) => Ok(last.(tokenType := kv.0, value := kv.1))
      case Err(e) => Err(e)
  {
    hide IntResult; hide ParseInt;
  }

  /** Whether comparison `op` holds between two integers. */
  predicate Holds(op: MathTokenType, a: int, b: int) {
    match op
    case GreaterThan => a > b
    case LessThan => a < b
    case GreaterThanOrEqualTo => a >= b
    case LessThanOrEqualTo => a <= b
    case EqualTo => a == b
    case NotEqualTo => a != b
    case _ => false
  }

  /** Integer comparisons give the boolean token "true" exactly when the
      comparison holds, and "false" otherwise. */
  lemma IntegerComparison(op: MathTokenType, first: MathToken, last: MathToken, a: int, b: int, fl: Floats)
    requires first.tokenType == Integer && last.tokenType == Integer
    requires ParseInt(first.value) == Some(a) && ParseInt(last.value) == Some(b)
    requires IsComparison(op)
    ensures var r := Combine(op, first, last, fl);
      r.Ok? && r.value.tokenType == Boolean
      && (r.value.value == "true" <==> Holds(op, a, b))
      && (r.value.value == "false" <==> !Holds(op, a, b))
  {
    hide Combine; hide ParseInt; hide IntToString;
    CombineIntegers(op, first, last, a, b, fl);
  }

  /** Every comparison that succeeds gives a boolean token "true" or "false". */
  lemma ComparisonGivesBoolean(op: MathTokenType, first: MathToken, last: MathToken, fl: Floats)
    requires IsComparison(op) && Combine(op, first, last, fl).Ok?
    ensures Combine(op, first, last, fl).value.tokenType == Boolean
    ensures Combine(op, first, last, fl).value.value in {"true", "false"}
  {
    hide ParseInt; hide IntToString;
  }

  /** Strings support `+` (concatenation), `==` and `!=` (on the text) and
      nothing else. */
  lemma StringOperators(op: MathTokenType, first: MathToken, last: MathToken, fl: Floats)
    requires first.tokenType == String && last.tokenType == String
    ensures var r := Combine(op, first, last, fl);
      && (r.Ok? <==> op == Addition || op == EqualTo || op == NotEqualTo)
      && (r.Err? ==> r.error == Invalid)
      && (op == Addition ==> r == Ok(MathToken(String, first.value + last.value, last.x, last.y)))
      && (op == EqualTo ==> r.Ok? && r.value.tokenType == Boolean && (r.value.value == "true" <==> first.value == last.value))
      && (op == NotEqualTo ==> r.Ok? && r.value.tokenType == Boolean && (r.value.value == "true" <==> first.value != last.value))
  {
  }

  /** Booleans support only `==` and `!=`, which compare the text. */
  lemma BooleanOperators(op: MathTokenType, first: MathToken, last: MathToken, fl: Floats)
    requires first.tokenType == Boolean && last.tokenType == Boolean
    ensures var r := Combine(op, first, last, fl);
      && (r.Ok? <==> op == EqualTo || op == NotEqualTo)
      && (r.Err? ==> r.error == Invalid)
      && (r.Ok? ==> r.value.tokenType == Boolean && (r.value.value == "true" <==> (first.value == last.value) == (op == EqualTo)))
  {
  }

  /** Operands of one type that is not data cannot be folded. */
  lemma NonDataOperands(op: MathTokenType, first: MathToken, last: MathToken, fl: Floats)
    requires first.tokenType == last.tokenType && !first.IsDataType()
    ensures Combine(op, first, last, fl) == Err(NotOperand)
  {
  }

  // ---------------------------------------------------------------------
  // Grouping, continued

  predicate NoParens(ts: seq<MathToken>) { forall k :: 0 <= k < |ts| ==> !IsParen(ts[k]) }

  /** An expression without parentheses reaches the passes unchanged. */
  lemma PlainExpression(to: seq<MathToken>, fl: Floats)
    requires NoParens(to)
    ensures PartitionFrom(to, 0, [], 0, [], fl) == Ok(to)
  {
    PartitionPlain(to, 0, [], fl);
    assert [] + to[0..] == to;
  }

  /** Tokens inside an open group are gathered unchanged. */
  lemma {:induction false} GatherGroup(to: seq<MathToken>, i: nat, j: nat, temp: seq<MathToken>, now: seq<MathToken>, fl: Floats)
    requires i <= j <= |to| && |temp| < i && NoParens(to[i..j])
    ensures PartitionFrom(to, i, temp, 1, now, fl) == PartitionFrom(to, j, temp + to[i..j], 1, now, fl)
    decreases j - i
  {
    if i < j {
      assert !IsParen(to[i..j][0]);
      assert to[i..j][1..] == to[i + 1..j];
      GatherGroup(to, i + 1, j, temp + [to[i]], now, fl);
      assert temp + [to[i]] + to[i + 1..j] == temp + to[i..j];
    } else {
      assert temp + to[i..j] == temp;
    }
  }

  /** A `)` outside every group aborts the evaluation. */
  lemma OverClosingFails(pre: seq<MathToken>, close: MathToken, post: seq<MathToken>, fl: Floats)
    requires NoParens(pre) && close.tokenType == ParenthesisClose
    ensures EvalTokens(pre + [close] + post, fl) == Err(OverClosing)
  {
    var to := pre + [close] + post;
    assert to[|pre|] == close;
    forall k | 0 <= k < |pre| ensures !IsParen(to[k]) {
      assert to[k] == pre[k];
    }
    PartitionSkip(to, 0, |pre|, [], fl);
    assert PartitionFrom(to, |pre|, [], 0, [] + to[0..|pre|], fl) == Err(OverClosing);
  }

  /** Tokens outside any group, from `i` to `j`, are passed on in order. */
  lemma {:induction false} PartitionSkip(to: seq<MathToken>, i: nat, j: nat, now: seq<MathToken>, fl: Floats)
    requires i <= j <= |to| && forall k :: i <= k < j ==> !IsParen(to[k])
    ensures PartitionFrom(to, i, [], 0, now, fl) == PartitionFrom(to, j, [], 0, now + to[i..j], fl)
    decreases j - i
  {
    if i < j {
      PartitionSkip(to, i + 1, j, now + [to[i]], fl);
      assert now + [to[i]] + to[i + 1..j] == now + to[i..j];
    } else {
      assert now + to[i..j] == now;
    }
  }

  /** A parenthesised group is replaced, in place, by the value of its
      contents; the evaluation aborts if the contents fail. */
  lemma GroupReplaced(pre: seq<MathToken>, open: MathToken, inner: seq<MathToken>, close: MathToken, post: seq<MathToken>, fl: Floats)
    requires NoParens(pre) && NoParens(inner) && NoParens(post)
    requires open.tokenType == ParenthesisOpen && close.tokenType == ParenthesisClose
    ensures var r := PartitionFrom(pre + [open] + inner + [close] + post, 0, [], 0, [], fl);
      && (EvalTokens(inner, fl).Ok? ==> r == Ok(pre + [EvalTokens(inner, fl).value] + post))
      && (EvalTokens(inner, fl).Err? ==> r == Err(EvalTokens(inner, fl).error))
  {
    hide EvalTokens; hide Tiers;
    var to := pre + [open] + inner + [close] + post;
    var a := |pre|;
    var b := a + 1 + |inner|;
    assert PartitionFrom(to, 0, [], 0, [], fl) == PartitionFrom(to, a + 1, [], 1, pre, fl) by {
      assert to[a] == open;
      forall k | 0 <= k < a ensures !IsParen(to[k]) { assert to[k] == pre[k]; }
      PartitionSkip(to, 0, a, [], fl);
      assert [] + to[0..a] == pre;
    }
    assert PartitionFrom(to, a + 1, [], 1, pre, fl) == PartitionFrom(to, b, inner, 1, pre, fl) by {
      assert to[a + 1..b] == inner;
      GatherGroup(to, a + 1, b, [], pre, fl);
      assert [] + to[a + 1..b] == inner;
    }
    var v := EvalTokens(inner, fl);
    if v.Ok? {
      assert PartitionFrom(to, b, inner, 1, pre, fl) == Ok(pre + [v.value] + post) by {
        assert to[b] == close;
        assert PartitionFrom(to, b, inner, 1, pre, fl) == PartitionFrom(to, b + 1, [], 0, pre + [v.value], fl);
        assert to[b + 1..] == post;
        forall k | b + 1 <= k < |to| ensures !IsParen(to[k]) { assert to[k] == post[k - b - 1]; }
        PartitionPlain(to, b + 1, pre + [v.value], fl);
      }
    } else {
      assert PartitionFrom(to, b, inner, 1, pre, fl) == Err(v.error) by {
        assert to[b] == close;
      }
    }
  }

  // ---------------------------------------------------------------------
  // Whole evaluations

  /** A token list whose three passes succeed, the last with one token left,
      evaluates to that token. */
  lemma PassesGive(now: seq<MathToken>, l1: seq<MathToken>, k1: int, l2: seq<MathToken>, k2: int, c: MathToken, k3: int, fl: Floats)
    requires TierLoop(MulDiv, now, -1, 0, 0, fl) == Ok((l1, k1))
    requires TierLoop(AddSub, l1, -1, 0, 0, fl) == Ok((l2, k2))
    requires TierLoop(Comparison, l2, -1, 0, k2, fl) == Ok(([c], k3))
    ensures Tiers(now, fl) == Ok(c)
  {
  }

  /** The pass that owns `o` folds `a o b`; the others leave it alone. */
  lemma PassOverOne(t: Tier, a: MathToken, o: MathToken, b: MathToken, addIdx: int, fl: Floats)
    requires a.IsDataType() && b.IsDataType()
    requires InTier(t, o.tokenType) ==> Slot(o.tokenType, a.tokenType, 1, addIdx) == 0
    ensures var r := TierLoop(t, [a, o, b], -1, 0, addIdx, fl);
      && (!InTier(t, o.tokenType) ==> r == Ok(([a, o, b], 1)))
      && (InTier(t, o.tokenType) ==> match Combine(o.tokenType, a, b, fl)
           case Ok(c) => r == Ok(([c], 1))
           case Err(e) => r == Err(e))
  {
    hide TierLoop; hide Combine;
    var list := [a, o, b];
    if InTier(t, o.tokenType) {
      PassSkip(t, list, -1, 0, addIdx, fl);
      var c := Combine(o.tokenType, a, b, fl);
      assert list[..0] + list[3..] == [];
      if c.Ok? {
        assert [] + [c.value] + [] == [c.value];
        PassFold(t, list, 0, 0, addIdx, fl, [c.value]);
        PassDone(t, [c.value], 1, 0, addIdx, fl);
      } else {
        PassFoldFails(t, list, 0, 0, addIdx, fl);
      }
    } else {
      PassWithoutOperators(t, list, -1, 0, addIdx, fl);
    }
  }

  /** One operator between two values evaluates to the two folded together,
      or to the error folding them gives. */
  lemma SingleOperation(a: MathToken, o: MathToken, b: MathToken, fl: Floats)
    requires a.IsDataType() && b.IsDataType()
    requires InTier(MulDiv, o.tokenType) || InTier(AddSub, o.tokenType) || IsComparison(o.tokenType)
    ensures EvalTokens([a, o, b], fl) == Combine(o.tokenType, a, b, fl)
  {
    PlainExpression([a, o, b], fl);
    PassOverOne(MulDiv, a, o, b, 0, fl);
    if !InTier(MulDiv, o.tokenType) {
      PassOverOne(AddSub, a, o, b, 0, fl);
      if !InTier(AddSub, o.tokenType) {
        PassOverOne(Comparison, a, o, b, 1, fl);
      }
    }
  }

  // ---------------------------------------------------------------------
  // The evaluator's own examples, on the tokens the expression lexer makes

  function Num(v: string, x: nat): MathToken { MathToken(Integer, v, x, 1) }
  function Bool(v: string, x: nat): MathToken { MathToken(Boolean, v, x, 1) }
  function Op(k: MathTokenType, x: nat): MathToken { MathToken(k, "", x, 1) }

  lemma ParseSmall()
    ensures ParseInt("0") == Some(0) && ParseInt("1") == Some(1)
    ensures ParseInt("43") == Some(43) && ParseInt("10") == Some(10)
    ensures ParseInt("120") == Some(120) && ParseInt("123") == Some(123)
    ensures ParseInt("9") == Some(9)
  {
    assert "43"[..1] == "4" && "10"[..1] == "1";
    assert "120"[..2] == "12" && "12"[..1] == "1";
    assert "123"[..2] == "12";
  }

  lemma PrintSmall()
    ensures IntToString(0) == "0" && IntToString(1) == "1" && IntToString(2) == "2"
    ensures IntToString(9) == "9" && IntToString(43) == "43"
  {
    assert NatToString(43) == NatToString(4) + [DigitChar(3)];
  }

  /** A number on its own evaluates to itself. */
  lemma NumberEvaluatesToItself(d: string, fl: Floats)
    requires |d| >= 1 && AllDigits(d)
    ensures EvalText(d, fl) == Ok(Num(d, 1))
  {
    DigitsLexToInteger(d);
    PlainExpression([Num(d, 1)], fl);
  }

  /** Evaluating the empty text aborts. */
  lemma EmptyTextFails(fl: Floats)
    ensures EvalText("", fl) == Err(EmptyExpression)
  {
  }

  /** `1 + 1` is 2 and `1/1` is 1. */
  lemma AddAndDivide(fl: Floats)
    ensures EvalTokens([Num("1", 1), Op(Addition, 3), Num("1", 5)], fl) == Ok(Num("2", 5))
    ensures EvalTokens([Num("1", 1), Op(Division, 2), Num("1", 3)], fl) == Ok(Num("1", 3))
  {
    hide EvalTokens; hide Tiers; hide TierLoop; hide PartitionFrom; hide ParseInt; hide IntToString;
    assert ParseInt("1") == Some(1) by { ParseSmall(); }
    assert IntToString(1 + 1) == "2" && IntToString(1) == "1" by { PrintSmall(); }
    SingleOperation(Num("1", 1), Op(Addition, 3), Num("1", 5), fl);
    SingleOperation(Num("1", 1), Op(Division, 2), Num("1", 3), fl);
    assert TruncDiv(1, 1) == 1;
  }

  /** An expression without parentheses goes straight to the passes. */
  lemma PlainEval(to: seq<MathToken>, fl: Floats)
    requires |to| > 0 && NoParens(to)
    ensures EvalTokens(to, fl) == Tiers(to, fl)
  {
    PlainExpression(to, fl);
  }

  /** When the first pass succeeds and the second leaves one token or fails,
      the comparison pass has nothing to do. */
  lemma AfterSecondPass(now: seq<MathToken>, l1: seq<MathToken>, k1: int, fl: Floats)
    requires TierLoop(MulDiv, now, -1, 0, 0, fl) == Ok((l1, k1))
    ensures var r2 := TierLoop(AddSub, l1, -1, 0, 0, fl);
      && (r2.Err? ==> Tiers(now, fl) == Err(r2.error))
      && (r2.Ok? && |r2.value.0| == 1 ==> Tiers(now, fl) == Ok(r2.value.0[0]))
  {
  }

  /** Folding the operator at index 1 puts the result first. */
  lemma ReduceFront(list: seq<MathToken>, addIdx: int, fl: Floats, c: MathToken)
    requires |list| >= 3 && Combine(list[1].tokenType, list[0], list[2], fl) == Ok(c)
    requires Slot(list[1].tokenType, list[0].tokenType, 1, addIdx) == 0
    ensures Reduce(list, 1, addIdx, fl) == Ok([c] + list[3..])
  {
    hide Combine; hide Slot;
    var rest := list[..0] + list[3..];
    assert rest == list[3..];
    assert rest[..0] + [c] + rest[0..] == [c] + list[3..];
  }

  lemma ProductPass(a: MathToken, o1: MathToken, b: MathToken, o2: MathToken, c: MathToken, ab: MathToken, fl: Floats)
    requires a.IsDataType() && b.IsDataType() && c.IsDataType()
    requires InTier(MulDiv, o1.tokenType) && InTier(AddSub, o2.tokenType)
    requires Combine(o1.tokenType, a, b, fl) == Ok(ab)
    ensures TierLoop(MulDiv, [a, o1, b, o2, c], -1, 0, 0, fl) == Ok(([ab, o2, c], 1))
  {
    hide TierLoop; hide Combine; hide Reduce;
    FoldsOfFive(a, o1, b, o2, c, ab);
    PassFoldsFront(MulDiv, [a, o1, b, o2, c], 0, fl, ab);
    NoOperatorsInThree(MulDiv, ab, o2, c);
    PassWithoutOperators(MulDiv, [ab, o2, c], 1, 0, 0, fl);
  }

  lemma ProductPassRight(a: MathToken, o1: MathToken, b: MathToken, o2: MathToken, c: MathToken, bc: MathToken, fl: Floats)
    requires a.IsDataType() && b.IsDataType() && c.IsDataType()
    requires InTier(AddSub, o1.tokenType) && InTier(MulDiv, o2.tokenType)
    requires Combine(o2.tokenType, b, c, fl) == Ok(bc)
    ensures TierLoop(MulDiv, [a, o1, b, o2, c], -1, 0, 0, fl) == Ok(([a, o1, bc], 1))
  {
    hide TierLoop; hide Combine; hide Reduce;
    var to := [a, o1, b, o2, c];
    FoldsOfFive(a, o1, b, o2, c, bc);
    ReduceAt(to, 3, 0, fl, bc);
    PassSkip(MulDiv, to, -1, 0, 0, fl);
    PassSkip(MulDiv, to, 0, 0, 0, fl);
    PassSkip(MulDiv, to, 1, 0, 0, fl);
    PassFold(MulDiv, to, 2, 0, 0, fl, [a, o1, bc]);
    NoOperatorsInThree(MulDiv, a, o1, bc);
    PassWithoutOperators(MulDiv, [a, o1, bc], 3, 0, 0, fl);
  }

  /** `a * b + c`: the product is folded first, then the sum. */
  lemma ProductThenSum(a: MathToken, o1: MathToken, b: MathToken, o2: MathToken, c: MathToken, ab: MathToken, fl: Floats)
    requires a.IsDataType() && b.IsDataType() && c.IsDataType()
    requires InTier(MulDiv, o1.tokenType) && InTier(AddSub, o2.tokenType)
    requires Combine(o1.tokenType, a, b, fl) == Ok(ab)
    ensures EvalTokens([a, o1, b, o2, c], fl) == Combine(o2.tokenType, ab, c, fl)
  {
    hide EvalTokens; hide Tiers; hide TierLoop; hide PartitionFrom; hide Combine;
    var to := [a, o1, b, o2, c];
    PlainEval(to, fl);
    ProductPass(a, o1, b, o2, c, ab, fl);
    PassOverOne(AddSub, ab, o2, c, 0, fl);
    AfterSecondPass(to, [ab, o2, c], 1, fl);
  }

  /** `a + b * c`: the product is folded first, then the sum. */
  lemma SumThenProduct(a: MathToken, o1: MathToken, b: MathToken, o2: MathToken, c: MathToken, bc: MathToken, fl: Floats)
    requires a.IsDataType() && b.IsDataType() && c.IsDataType()
    requires InTier(AddSub, o1.tokenType) && InTier(MulDiv, o2.tokenType)
    requires Combine(o2.tokenType, b, c, fl) == Ok(bc)
    ensures EvalTokens([a, o1, b, o2, c], fl) == Combine(o1.tokenType, a, bc, fl)
  {
    hide EvalTokens; hide Tiers; hide TierLoop; hide PartitionFrom; hide Combine;
    var to := [a, o1, b, o2, c];
    PlainEval(to, fl);
    ProductPassRight(a, o1, b, o2, c, bc, fl);
    PassOverOne(AddSub, a, o1, bc, 0, fl);
    AfterSecondPass(to, [a, o1, bc], 1, fl);
  }

  /** `43 * 0 + 43` is 43. */
  lemma ProductBeforeSum(fl: Floats)
    ensures EvalTokens([Num("43", 1), Op(Multiplication, 4), Num("0", 6), Op(Addition, 8), Num("43", 10)], fl)
      == Ok(Num("43", 10))
  {
    hide EvalTokens; hide Tiers; hide TierLoop; hide PartitionFrom; hide ParseInt; hide IntToString;
    assert ParseInt("43") == Some(43) && ParseInt("0") == Some(0) by { ParseSmall(); }
    assert IntToString(43 * 0) == "0" && IntToString(0 + 43) == "43" by { PrintSmall(); }
    ProductThenSum(Num("43", 1), Op(Multiplication, 4), Num("0", 6), Op(Addition, 8), Num("43", 10), Num("0", 6), fl);
  }

  /** An integer comparison between two values evaluates to the boolean
      telling whether it holds, at the right operand's position. */
  lemma IntegerComparisonExample(a: MathToken, o: MathToken, b: MathToken, m: int, n: int, fl: Floats)
    requires a.tokenType == Integer && b.tokenType == Integer && IsComparison(o.tokenType)
    requires ParseInt(a.value) == Some(m) && ParseInt(b.value) == Some(n)
    ensures EvalTokens([a, o, b], fl) == Ok(MathToken(Boolean, BoolText(Holds(o.tokenType, m, n)), b.x, b.y))
  {
    hide EvalTokens; hide Tiers; hide TierLoop; hide PartitionFrom; hide Combine; hide ParseInt;
    SingleOperation(a, o, b, fl);
    IntegerComparison(o.tokenType, a, b, m, n, fl);
  }

  /** A comparison between two numbers as the expression lexer emits them. */
  lemma NumberComparison(va: string, o: MathTokenType, xo: nat, vb: string, xb: nat, m: int, n: int, fl: Floats)
    requires ParseInt(va) == Some(m) && ParseInt(vb) == Some(n) && IsComparison(o)
    ensures EvalTokens([Num(va, 1), Op(o, xo), Num(vb, xb)], fl) == Ok(Bool(BoolText(Holds(o, m, n)), xb))
  {
    hide EvalTokens; hide ParseInt; hide BoolText; hide Holds;
    IntegerComparisonExample(Num(va, 1), Op(o, xo), Num(vb, xb), m, n, fl);
  }

  /** The comparison examples that hold: `123 == 123`, `123 > 120` and
      `123 != 120`. */
  lemma ComparisonsThatHold(fl: Floats)
    ensures EvalTokens([Num("123", 1), Op(EqualTo, 5), Num("123", 8)], fl) == Ok(Bool("true", 8))
    ensures EvalTokens([Num("123", 1), Op(GreaterThan, 5), Num("120", 7)], fl) == Ok(Bool("true", 7))
    ensures EvalTokens([Num("123", 1), Op(NotEqualTo, 5), Num("120", 8)], fl) == Ok(Bool("true", 8))
  {
    hide EvalTokens; hide Tiers; hide TierLoop; hide PartitionFrom; hide Combine; hide ParseInt;
    assert ParseInt("123") == Some(123) && ParseInt("120") == Some(120) by { ParseSmall(); }
    NumberComparison("123", EqualTo, 5, "123", 8, 123, 123, fl);
    NumberComparison("123", GreaterThan, 5, "120", 7, 123, 120, fl);
    NumberComparison("123", NotEqualTo, 5, "120", 8, 123, 120, fl);
  }

  /** The comparison examples that fail: `123 < 120` and `123 <= 120`. */
  lemma ComparisonsThatFail(fl: Floats)
    ensures EvalTokens([Num("123", 1), Op(LessThan, 5), Num("120", 7)], fl) == Ok(Bool("false", 7))
    ensures EvalTokens([Num("123", 1), Op(LessThanOrEqualTo, 5), Num("120", 8)], fl) == Ok(Bool("false", 8))
  {
    hide EvalTokens; hide Tiers; hide TierLoop; hide PartitionFrom; hide Combine; hide ParseInt;
    assert ParseInt("123") == Some(123) && ParseInt("120") == Some(120) by { ParseSmall(); }
    NumberComparison("123", LessThan, 5, "120", 7, 123, 120, fl);
    NumberComparison("123", LessThanOrEqualTo, 5, "120", 8, 123, 120, fl);
  }

  /** `>=` reaches the evaluator as `>` (the expression lexer's table), so
      `123 >= 120` is true but `120 >= 120` is false. */
  lemma GreaterOrEqualIsStrict(fl: Floats)
    ensures LexMath(">=") == Ok([Op(GreaterThan, 1)])
    ensures EvalTokens([Num("123", 1), Op(GreaterThan, 5), Num("120", 8)], fl) == Ok(Bool("true", 8))
    ensures EvalTokens([Num("120", 1), Op(GreaterThan, 5), Num("120", 8)], fl) == Ok(Bool("false", 8))
  {
    hide EvalTokens; hide Tiers; hide TierLoop; hide PartitionFrom; hide Combine; hide ParseInt; hide LexMath;
    ComparisonTokens();
    assert ParseInt("123") == Some(123) && ParseInt("120") == Some(120) by { ParseSmall(); }
    NumberComparison("123", GreaterThan, 5, "120", 8, 123, 120, fl);
    NumberComparison("120", GreaterThan, 5, "120", 8, 120, 120, fl);
  }

  // ---------------------------------------------------------------------
  // Finding: a pass resumes after the token it has just folded

  /** Folding the operator at `i` in place, for any `i`. */
  lemma ReduceAt(list: seq<MathToken>, i: int, addIdx: int, fl: Floats, c: MathToken)
    requires 1 <= i && i + 1 < |list| && Combine(list[i].tokenType, list[i - 1], list[i + 1], fl) == Ok(c)
    requires Slot(list[i].tokenType, list[i - 1].tokenType, i, addIdx) == i - 1
    ensures Reduce(list, i, addIdx, fl) == Ok(list[..i - 1] + [c] + list[i + 2..])
  {
    var rest := list[..i - 1] + list[i + 2..];
    assert rest[..i - 1] == list[..i - 1] && rest[i - 1..] == list[i + 2..];
  }

  lemma RegroupFirst(t: Tier, a: MathToken, o1: MathToken, b: MathToken, o2: MathToken, c: MathToken,
                     o3: MathToken, d: MathToken, ab: MathToken, fl: Floats)
    requires t != Comparison
    requires a.IsDataType() && b.IsDataType() && c.IsDataType() && d.IsDataType()
    requires InTier(t, o1.tokenType) && InTier(t, o2.tokenType) && InTier(t, o3.tokenType)
    requires Combine(o1.tokenType, a, b, fl) == Ok(ab)
    ensures TierLoop(t, [a, o1, b, o2, c, o3, d], -1, 0, 0, fl) == TierLoop(t, [ab, o2, c, o3, d], 1, 0, 0, fl)
  {
    FrontOfSeven(a, o1, b, o2, c, o3, d, ab);
    PassFoldsFront(t, [a, o1, b, o2, c, o3, d], 0, fl, ab);
  }

  lemma RegroupSecond(t: Tier, ab: MathToken, o2: MathToken, c: MathToken, o3: MathToken, d: MathToken, cd: MathToken, fl: Floats)
    requires t != Comparison
    requires ab.IsDataType() && c.IsDataType() && d.IsDataType()
    requires InTier(t, o2.tokenType) && InTier(t, o3.tokenType)
    requires Combine(o3.tokenType, c, d, fl) == Ok(cd)
    ensures TierLoop(t, [ab, o2, c, o3, d], 1, 0, 0, fl) == TierLoop(t, [ab, o2, cd], 0, 1, 0, fl)
  {
    hide TierLoop; hide Reduce; hide Combine;
    var l1 := [ab, o2, c, o3, d];
    var l2 := [ab, o2, cd];
    PassSkip(t, l1, 1, 0, 0, fl);
    ReduceAt(l1, 3, 0, fl, cd);
    assert l1[..2] + [cd] + l1[5..] == l2;
    PassFold(t, l1, 2, 0, 0, fl, l2);
    PassWrap(t, l2, 3, 0, 0, fl);
  }

  lemma RegroupLast(t: Tier, ab: MathToken, o2: MathToken, cd: MathToken, fl: Floats)
    requires t != Comparison
    requires ab.IsDataType() && cd.IsDataType() && InTier(t, o2.tokenType)
    ensures TierLoop(t, [ab, o2, cd], 0, 1, 0, fl)
      == match Combine(o2.tokenType, ab, cd, fl)
         case Ok(v) => Ok(([v], 1))
         case Err(e) => Err(e)
  {
    var l2 := [ab, o2, cd];
    match Combine(o2.tokenType, ab, cd, fl)
    case Ok(v) =>
      ReduceFront(l2, 0, fl, v);
      assert [v] + l2[3..] == [v];
      PassFold(t, l2, 0, 1, 0, fl, [v]);
    case Err(e) =>
  }

  /** As written, the `* / %` or `+ -` pass over `a o1 b o2 c o3 d` folds `a o1 b`,
      then moves past `o2` to fold `c o3 d`, and folds `o2` last: it
      computes `(a o1 b) o2 (c o3 d)`. */
  lemma PassRegroups(t: Tier, a: MathToken, o1: MathToken, b: MathToken, o2: MathToken, c: MathToken,
                     o3: MathToken, d: MathToken, ab: MathToken, cd: MathToken, fl: Floats)
    requires t != Comparison
    requires a.IsDataType() && b.IsDataType() && c.IsDataType() && d.IsDataType()
    requires InTier(t, o1.tokenType) && InTier(t, o2.tokenType) && InTier(t, o3.tokenType)
    requires Combine(o1.tokenType, a, b, fl) == Ok(ab) && Combine(o3.tokenType, c, d, fl) == Ok(cd)
    ensures TierLoop(t, [a, o1, b, o2, c, o3, d], -1, 0, 0, fl)
      == match Combine(o2.tokenType, ab, cd, fl)
         case Ok(v) => Ok(([v], 1))
         case Err(e) => Err(e)
  {
    RegroupFirst(t, a, o1, b, o2, c, o3, d, ab, fl);
    RegroupSecond(t, ab, o2, c, o3, d, cd, fl);
    RegroupLast(t, ab, o2, cd, fl);
  }

  /** As written, `a o1 b o2 c o3 d` with three `+`/`-` operators evaluates
      to `(a o1 b) o2 (c o3 d)`. */
  lemma SumsRegroup(a: MathToken, o1: MathToken, b: MathToken, o2: MathToken, c: MathToken,
                    o3: MathToken, d: MathToken, ab: MathToken, cd: MathToken, fl: Floats)
    requires a.IsDataType() && b.IsDataType() && c.IsDataType() && d.IsDataType()
    requires InTier(AddSub, o1.tokenType) && InTier(AddSub, o2.tokenType) && InTier(AddSub, o3.tokenType)
    requires Combine(o1.tokenType, a, b, fl) == Ok(ab) && Combine(o3.tokenType, c, d, fl) == Ok(cd)
    ensures EvalTokens([a, o1, b, o2, c, o3, d], fl) == Combine(o2.tokenType, ab, cd, fl)
  {
    hide EvalTokens; hide Tiers; hide TierLoop; hide PartitionFrom; hide Combine;
    var l0 := [a, o1, b, o2, c, o3, d];
    assert EvalTokens(l0, fl) == Tiers(l0, fl) by { PlainEval(l0, fl); }
    assert TierLoop(MulDiv, l0, -1, 0, 0, fl) == Ok((l0, 1)) by { PassWithoutOperators(MulDiv, l0, -1, 0, 0, fl); }
    PassRegroups(AddSub, a, o1, b, o2, c, o3, d, ab, cd, fl);
    AfterSecondPass(l0, l0, 1, fl);
  }

  /** As written, `10 - 1 - 1 - 1` is 9, not 7. */
  lemma SubtractionRegroups(fl: Floats)
    ensures EvalTokens([Num("10", 1), Op(Subtraction, 4), Num("1", 6), Op(Subtraction, 8),
                        Num("1", 10), Op(Subtraction, 12), Num("1", 14)], fl) == Ok(Num("9", 14))
  {
    hide EvalTokens; hide Tiers; hide TierLoop; hide PartitionFrom; hide ParseInt; hide IntToString;
    var l0 := [Num("10", 1), Op(Subtraction, 4), Num("1", 6), Op(Subtraction, 8),
               Num("1", 10), Op(Subtraction, 12), Num("1", 14)];
    assert Combine(Subtraction, Num("10", 1), Num("1", 6), fl) == Ok(Num("9", 6)) by {
      assert ParseInt("10") == Some(10) && ParseInt("1") == Some(1) by { ParseSmall(); }
      assert IntToString(10 - 1) == "9" by { PrintSmall(); }
    }
    assert Combine(Subtraction, Num("1", 10), Num("1", 14), fl) == Ok(Num("0", 14)) by {
      assert ParseInt("1") == Some(1) by { ParseSmall(); }
      assert IntToString(1 - 1) == "0" by { PrintSmall(); }
    }
    assert Combine(Subtraction, Num("9", 6), Num("0", 14), fl) == Ok(Num("9", 14)) by {
      assert ParseInt("9") == Some(9) && ParseInt("0") == Some(0) by { ParseSmall(); }
      assert IntToString(9 - 0) == "9" by { PrintSmall(); }
    }
    SumsRegroup(Num("10", 1), Op(Subtraction, 4), Num("1", 6), Op(Subtraction, 8),
                Num("1", 10), Op(Subtraction, 12), Num("1", 14), Num("9", 6), Num("0", 14), fl);
  }

  /** As written, `a o1 b o2 c o3 d` with three `* / %` operators evaluates
      to `(a o1 b) o2 (c o3 d)`, as the `+ -` pass does. */
  lemma ProductsRegroup(a: MathToken, o1: MathToken, b: MathToken, o2: MathToken, c: MathToken,
                        o3: MathToken, d: MathToken, ab: MathToken, cd: MathToken, fl: Floats)
    requires a.IsDataType() && b.IsDataType() && c.IsDataType() && d.IsDataType()
    requires InTier(MulDiv, o1.tokenType) && InTier(MulDiv, o2.tokenType) && InTier(MulDiv, o3.tokenType)
    requires Combine(o1.tokenType, a, b, fl) == Ok(ab) && Combine(o3.tokenType, c, d, fl) == Ok(cd)
    ensures EvalTokens([a, o1, b, o2, c, o3, d], fl) == Combine(o2.tokenType, ab, cd, fl)
  {
    hide EvalTokens; hide TierLoop; hide PartitionFrom; hide Combine;
    var l0 := [a, o1, b, o2, c, o3, d];
    assert EvalTokens(l0, fl) == Tiers(l0, fl) by { PlainEval(l0, fl); }
    PassRegroups(MulDiv, a, o1, b, o2, c, o3, d, ab, cd, fl);
    match Combine(o2.tokenType, ab, cd, fl)
    case Ok(v) =>
      PassDone(AddSub, [v], -1, 0, 0, fl);
      AfterSecondPass(l0, [v], 1, fl);
    case Err(e) =>
  }

  lemma DivisionNumbers()
    ensures ParseInt("8") == Some(8) && ParseInt("4") == Some(4) && ParseInt("2") == Some(2) && ParseInt("1") == Some(1)
    ensures IntToString(4) == "4" && IntToString(2) == "2" && IntToString(1) == "1"
  {
  }

  /** The integer divisions of `8 / 2 / 2 / 2`, both as written and as
      intended. */
  lemma DivisionSteps(fl: Floats)
    ensures Combine(Division, Num("8", 1), Num("2", 5), fl) == Ok(Num("4", 5))
    ensures Combine(Division, Num("2", 9), Num("2", 13), fl) == Ok(Num("1", 13))
    ensures Combine(Division, Num("4", 5), Num("1", 13), fl) == Ok(Num("4", 13))
    ensures Combine(Division, Num("4", 5), Num("2", 9), fl) == Ok(Num("2", 9))
    ensures Combine(Division, Num("2", 9), Num("2", 13), fl) == Ok(Num("1", 13))
  {
    hide Combine; hide ParseInt; hide IntToString;
    DivisionNumbers();
    CombineIntegers(Division, Num("8", 1), Num("2", 5), 8, 2, fl);
    CombineIntegers(Division, Num("2", 9), Num("2", 13), 2, 2, fl);
    CombineIntegers(Division, Num("4", 5), Num("1", 13), 4, 1, fl);
    CombineIntegers(Division, Num("4", 5), Num("2", 9), 4, 2, fl);
  }

  /** As written, `8 / 2 / 2 / 2` is 4, not 1. */
  lemma DivisionRegroups(fl: Floats)
    ensures EvalTokens([Num("8", 1), Op(Division, 3), Num("2", 5), Op(Division, 7),
                        Num("2", 9), Op(Division, 11), Num("2", 13)], fl) == Ok(Num("4", 13))
  {
    hide EvalTokens; hide Combine;
    DivisionSteps(fl);
    ProductsRegroup(Num("8", 1), Op(Division, 3), Num("2", 5), Op(Division, 7),
                    Num("2", 9), Op(Division, 11), Num("2", 13), Num("4", 5), Num("1", 13), fl);
  }

  /** The corrected `Reduce`: the folded token takes the place of its
      operands, whatever the operator and the operands' type. */
  function ReduceInPlace(list: seq<MathToken>, i: int, fl: Floats): (r: Result<seq<MathToken>, EvalError>)
    requires 0 <= i < |list|
    ensures r.Ok? <==> 1 <= i && i + 1 < |list| && Combine(list[i].tokenType, list[i - 1], list[i + 1], fl).Ok?
    ensures r.Ok? ==> r.value == list[..i - 1] + [Combine(list[i].tokenType, list[i - 1], list[i + 1], fl).value] + list[i + 2..]
  {
    if i == 0 || i + 1 >= |list| then Err(MissingOperand)
    else
      var tok :- Combine(list[i].tokenType, list[i - 1], list[i + 1], fl);
      Ok(list[..i - 1] + [tok] + list[i + 2..])
  }

  /** The corrected pass: after a fold it looks at the folded token's right
      neighbour next, so operators of one pass are folded left to right. */
  function TierLoopFixed(t: Tier, list: seq<MathToken>, idx: int, rounds: int, fl: Floats): Result<(seq<MathToken>, int), EvalError>
    requires -1 <= idx && 0 <= rounds <= 2
    decreases |list|, 2 - rounds, |list| - idx
  {
    if |list| == 1 then Ok((list, idx))
    else if rounds > 1 then Ok((list, idx + 1))
    else
      var wrap := idx + 1 >= |list|;
      var i := if wrap then 0 else idx + 1;
      var r := if wrap then rounds + 1 else rounds;
      if i >= |list| then Err(NoValue)
      else if InTier(t, list[i].tokenType) then
        var next :- ReduceInPlace(list, i, fl);
        TierLoopFixed(t, next, i - 1, 0, fl)
      else TierLoopFixed(t, list, i, r, fl)
  }

  /** The source's pass with only the slot corrected: it resumes where the
      source does, but every fold stays in place of its operands. */
  function TierLoopSlotFixed(t: Tier, list: seq<MathToken>, idx: int, rounds: int, fl: Floats): Result<(seq<MathToken>, int), EvalError>
    requires -1 <= idx && 0 <= rounds <= 2
    decreases |list|, 2 - rounds, |list| - idx
  {
    if |list| == 1 then Ok((list, idx))
    else if rounds > 1 then Ok((list, idx + 1))
    else
      var wrap := idx + 1 >= |list|;
      var i := if wrap then 0 else idx + 1;
      var r := if wrap then rounds + 1 else rounds;
      if i >= |list| then Err(NoValue)
      else if InTier(t, list[i].tokenType) then
        var next :- ReduceInPlace(list, i, fl);
        TierLoopSlotFixed(t, next, i, 0, fl)
      else TierLoopSlotFixed(t, list, i, r, fl)
  }

  function IntValue(t: MathToken): int
    requires ParseInt(t.value).Some?
  {
    ParseInt(t.value).value
  }

  /** `v0 op1 v1 op2 v2 ...`: integers separated by `+` and `-`. */
  predicate SumChain(list: seq<MathToken>) {
    |list| % 2 == 1
    && (forall k :: 0 <= k < |list| && k % 2 == 0 ==> list[k].tokenType == Integer && ParseInt(list[k].value).Some?)
    && (forall k :: 0 <= k < |list| && k % 2 == 1 ==> InTier(AddSub, list[k].tokenType))
  }

  function Apply(op: MathTokenType, a: int, b: int): int {
    if op == Addition then a + b else a - b
  }

  /** The value of a sum chain read from left to right. */
  function LeftFold(list: seq<MathToken>): int
    requires SumChain(list)
    decreases |list|
  {
    if |list| == 1 then IntValue(list[0])
    else
      var n := |list|;
      assert SumChain(list[..n - 2]);
      Apply(list[n - 2].tokenType, LeftFold(list[..n - 2]), IntValue(list[n - 1]))
  }

  /** Replacing the first operation of a chain by its value keeps a chain
      with the same left-to-right value. */
  lemma {:induction false} FoldFirst(list: seq<MathToken>, c: MathToken)
    requires SumChain(list) && |list| >= 3
    requires c.tokenType == Integer
    requires ParseInt(c.value) == Some(Apply(list[1].tokenType, IntValue(list[0]), IntValue(list[2])))
    ensures SumChain([c] + list[3..])
    ensures LeftFold([c] + list[3..]) == LeftFold(list)
    decreases |list|
  {
    ChainAfterFold(list, c);
    var n := |list|;
    LeftFoldStep(list);
    hide SumChain; hide LeftFold; hide ParseInt; hide Apply; hide IntValue;
    if n == 3 {
      var m := [c] + list[3..];
      assert list[..1] == [list[0]];
      assert m == [c];
      LeftFoldOne(m);
      LeftFoldOne(list[..1]);
    } else {
      var p := list[..n - 2];
      assert p[1] == list[1] && p[0] == list[0] && p[2] == list[2];
      FoldFirst(p, c);
      FoldFirstStep(list, c);
    }
  }

  /** The step of `FoldFirst`: the fold of the first operation commutes with
      the last one. */
  lemma FoldFirstStep(list: seq<MathToken>, c: MathToken)
    requires SumChain(list) && |list| >= 5 && SumChain([c] + list[3..])
    requires SumChain(list[..|list| - 2]) && SumChain([c] + list[..|list| - 2][3..])
    requires LeftFold([c] + list[..|list| - 2][3..]) == LeftFold(list[..|list| - 2])
    ensures LeftFold([c] + list[3..]) == LeftFold(list)
  {
    hide SumChain; hide LeftFold; hide ParseInt; hide IntValue; hide Apply;
    var n := |list|;
    var m := [c] + list[3..];
    LeftFoldStep(list);
    LeftFoldStep(m);
    assert |m| == n - 2;
    assert list[..n - 2][3..] == list[3..n - 2];
    assert m[..n - 4] == [c] + list[3..n - 2];
    assert m[n - 4] == list[n - 2] && m[n - 3] == list[n - 1];
  }

  lemma LeftFoldOne(list: seq<MathToken>)
    requires SumChain(list) && |list| == 1
    ensures LeftFold(list) == IntValue(list[0])
  {
  }

  /** One level of `LeftFold`: the last operation of a chain applied to the
      value of the rest. */
  lemma LeftFoldStep(list: seq<MathToken>)
    requires SumChain(list) && |list| >= 3
    ensures SumChain(list[..|list| - 2])
    ensures LeftFold(list) == Apply(list[|list| - 2].tokenType, LeftFold(list[..|list| - 2]), IntValue(list[|list| - 1]))
  {
    var p := list[..|list| - 2];
    assert forall k :: 0 <= k < |p| ==> p[k] == list[k];
    assert SumChain(p);
  }

  lemma ChainAfterFold(list: seq<MathToken>, c: MathToken)
    requires SumChain(list) && |list| >= 3
    requires c.tokenType == Integer && ParseInt(c.value).Some?
    ensures SumChain([c] + list[3..])
  {
    var m := [c] + list[3..];
    assert forall k :: 1 <= k < |m| ==> m[k] == list[k + 2];
  }

  lemma {:induction false} FixedFoldsFrom(list: seq<MathToken>, fl: Floats)
    requires SumChain(list)
    ensures var r := TierLoopFixed(AddSub, list, 0, 0, fl);
      r.Ok? && |r.value.0| == 1 && r.value.0[0].tokenType == Integer
      && ParseInt(r.value.0[0].value) == Some(LeftFold(list))
    decreases |list|
  {
    if |list| > 1 {
      var c := FixedFirstFold(list, fl);
      FoldFirst(list, c);
      FixedFoldsFrom([c] + list[3..], fl);
    }
  }

  /** A `+` or `-` between two integers folds to an integer token holding
      their sum or difference. */
  lemma SumFold(op: MathTokenType, first: MathToken, last: MathToken, fl: Floats)
    requires first.tokenType == Integer && last.tokenType == Integer && InTier(AddSub, op)
    requires ParseInt(first.value).Some? && ParseInt(last.value).Some?
    ensures var r := Combine(op, first, last, fl);
      r.Ok? && r.value.tokenType == Integer
      && ParseInt(r.value.value) == Some(Apply(op, IntValue(first), IntValue(last)))
  {
    ParseIntToString(Apply(op, IntValue(first), IntValue(last)));
  }

  /** The corrected pass, at the front of a sum chain, folds the first
      operation and carries on from the folded token. */
  lemma FixedFirstFold(list: seq<MathToken>, fl: Floats) returns (c: MathToken)
    requires SumChain(list) && |list| > 1
    ensures c.tokenType == Integer
    ensures ParseInt(c.value) == Some(Apply(list[1].tokenType, IntValue(list[0]), IntValue(list[2])))
    ensures TierLoopFixed(AddSub, list, 0, 0, fl) == TierLoopFixed(AddSub, [c] + list[3..], 0, 0, fl)
  {
    assert list[0].tokenType == Integer && list[2].tokenType == Integer && InTier(AddSub, list[1].tokenType);
    SumFold(list[1].tokenType, list[0], list[2], fl);
    c := Combine(list[1].tokenType, list[0], list[2], fl).value;
    FixedFrontFold(AddSub, list, fl, c);
  }

  /** The corrected pass, standing at the front of a list whose first
      operator is at index 1, folds it and stays at the front. */
  lemma FixedFrontFold(t: Tier, list: seq<MathToken>, fl: Floats, c: MathToken)
    requires |list| >= 3 && InTier(t, list[1].tokenType)
    requires Combine(list[1].tokenType, list[0], list[2], fl) == Ok(c)
    ensures TierLoopFixed(t, list, 0, 0, fl) == TierLoopFixed(t, [c] + list[3..], 0, 0, fl)
  {
    assert list[..0] + [c] + list[3..] == [c] + list[3..];
  }

  /** With the correction, a chain of `+` and `-` folds to its value read
      from left to right. */
  lemma FixedPassFoldsLeft(list: seq<MathToken>, fl: Floats)
    requires SumChain(list)
    ensures var r := TierLoopFixed(AddSub, list, -1, 0, fl);
      r.Ok? && |r.value.0| == 1 && r.value.0[0].tokenType == Integer
      && ParseInt(r.value.0[0].value) == Some(LeftFold(list))
  {
    FixedFoldsFrom(list, fl);
    if |list| > 1 {
      assert TierLoopFixed(AddSub, list, -1, 0, fl) == TierLoopFixed(AddSub, list, 0, 0, fl);
    }
  }

  lemma LeftFoldOfThree(l0: seq<MathToken>)
    requires SumChain(l0) && |l0| == 7
    ensures LeftFold(l0) == Apply(l0[5].tokenType, Apply(l0[3].tokenType, Apply(l0[1].tokenType,
      IntValue(l0[0]), IntValue(l0[2])), IntValue(l0[4])), IntValue(l0[6]))
  {
    var l1, l3, l5 := l0[..1], l0[..3], l0[..5];
    assert SumChain(l1) && SumChain(l3) && SumChain(l5);
    assert l3[..1] == l1 && l5[..3] == l3;
    assert LeftFold(l1) == IntValue(l0[0]);
    assert LeftFold(l3) == Apply(l0[1].tokenType, LeftFold(l1), IntValue(l0[2]));
    assert LeftFold(l5) == Apply(l0[3].tokenType, LeftFold(l3), IntValue(l0[4]));
  }

  lemma ChainOfThree(a: MathToken, o1: MathToken, b: MathToken, o2: MathToken, c: MathToken, o3: MathToken, d: MathToken)
    requires a.tokenType == Integer && b.tokenType == Integer && c.tokenType == Integer && d.tokenType == Integer
    requires ParseInt(a.value).Some? && ParseInt(b.value).Some? && ParseInt(c.value).Some? && ParseInt(d.value).Some?
    requires InTier(AddSub, o1.tokenType) && InTier(AddSub, o2.tokenType) && InTier(AddSub, o3.tokenType)
    ensures SumChain([a, o1, b, o2, c, o3, d])
  {
    var l0 := [a, o1, b, o2, c, o3, d];
    forall k | 0 <= k < 7 && k % 2 == 0 ensures l0[k].tokenType == Integer && ParseInt(l0[k].value).Some? {
      assert k == 0 || k == 2 || k == 4 || k == 6;
    }
    forall k | 0 <= k < 7 && k % 2 == 1 ensures InTier(AddSub, l0[k].tokenType) {
      assert k == 1 || k == 3 || k == 5;
    }
  }

  /** With the correction, `a o1 b o2 c o3 d` with three `+`/`-` operators
      is `((a o1 b) o2 c) o3 d`. */
  lemma FixedChainOfThree(a: MathToken, o1: MathToken, b: MathToken, o2: MathToken, c: MathToken,
                          o3: MathToken, d: MathToken, fl: Floats)
    requires a.tokenType == Integer && b.tokenType == Integer && c.tokenType == Integer && d.tokenType == Integer
    requires ParseInt(a.value).Some? && ParseInt(b.value).Some? && ParseInt(c.value).Some? && ParseInt(d.value).Some?
    requires InTier(AddSub, o1.tokenType) && InTier(AddSub, o2.tokenType) && InTier(AddSub, o3.tokenType)
    ensures var r := TierLoopFixed(AddSub, [a, o1, b, o2, c, o3, d], -1, 0, fl);
      r.Ok? && |r.value.0| == 1 && ParseInt(r.value.0[0].value)
        == Some(Apply(o3.tokenType, Apply(o2.tokenType, Apply(o1.tokenType, IntValue(a), IntValue(b)), IntValue(c)), IntValue(d)))
  {
    var l0 := [a, o1, b, o2, c, o3, d];
    ChainOfThree(a, o1, b, o2, c, o3, d);
    LeftFoldOfThree(l0);
    FixedPassFoldsLeft(l0, fl);
  }

  /** With the correction, `10 - 1 - 1 - 1` is 7. */
  lemma SubtractionFixed(fl: Floats)
    ensures var r := TierLoopFixed(AddSub, [Num("10", 1), Op(Subtraction, 4), Num("1", 6), Op(Subtraction, 8),
                                            Num("1", 10), Op(Subtraction, 12), Num("1", 14)], -1, 0, fl);
      r.Ok? && |r.value.0| == 1 && ParseInt(r.value.0[0].value) == Some(7)
  {
    assert ParseInt("10") == Some(10) && ParseInt("1") == Some(1) by { ParseSmall(); }
    FixedChainOfThree(Num("10", 1), Op(Subtraction, 4), Num("1", 6), Op(Subtraction, 8),
                      Num("1", 10), Op(Subtraction, 12), Num("1", 14), fl);
  }

  /** With the correction, the `* / %` pass reads `8 / 2 / 2 / 2` from left
      to right and gives 1. */
  lemma DivisionFixed(fl: Floats)
    ensures TierLoopFixed(MulDiv, [Num("8", 1), Op(Division, 3), Num("2", 5), Op(Division, 7),
                                   Num("2", 9), Op(Division, 11), Num("2", 13)], -1, 0, fl)
      == Ok(([Num("1", 13)], 0))
  {
    hide TierLoopFixed; hide Combine;
    DivisionSteps(fl);
    FixedFoldsOfSeven(MulDiv, Num("8", 1), Op(Division, 3), Num("2", 5), Op(Division, 7), Num("2", 9),
                      Op(Division, 11), Num("2", 13), Num("4", 5), Num("2", 9), Num("1", 13), fl);
  }

  // ---------------------------------------------------------------------
  // Finding: `==` and `!=` on strings and booleans land at the front

  lemma MisplacedFirst(a: MathToken, o1: MathToken, b: MathToken, o2: MathToken, c: MathToken,
                       o3: MathToken, d: MathToken, ab: MathToken, fl: Floats)
    requires a.IsDataType() && b.IsDataType() && c.IsDataType() && d.IsDataType()
    requires IsComparison(o1.tokenType) && IsComparison(o2.tokenType) && IsComparison(o3.tokenType)
    requires Combine(o1.tokenType, a, b, fl) == Ok(ab)
    ensures TierLoop(Comparison, [a, o1, b, o2, c, o3, d], -1, 0, 1, fl) == TierLoop(Comparison, [ab, o2, c, o3, d], 2, 0, 1, fl)
  {
    hide TierLoop; hide Combine; hide Reduce;
    FrontOfSeven(a, o1, b, o2, c, o3, d, ab);
    PassFoldsFront(Comparison, [a, o1, b, o2, c, o3, d], 1, fl, ab);
    PassSkip(Comparison, [ab, o2, c, o3, d], 1, 0, 1, fl);
  }

  lemma MisplacedSecond(ab: MathToken, o2: MathToken, c: MathToken, o3: MathToken, d: MathToken, cd: MathToken, fl: Floats)
    requires ab.IsDataType() && cd.IsDataType() && IsComparison(o2.tokenType) && IsComparison(o3.tokenType)
    requires (o3.tokenType == EqualTo || o3.tokenType == NotEqualTo) && (c.tokenType == String || c.tokenType == Boolean)
    requires Combine(o3.tokenType, c, d, fl) == Ok(cd)
    ensures TierLoop(Comparison, [ab, o2, c, o3, d], 2, 0, 1, fl) == TierLoop(Comparison, [cd, ab, o2], 3, 0, 1, fl)
  {
    var l1 := [ab, o2, c, o3, d];
    var l2 := [cd, ab, o2];
    assert Reduce(l1, 3, 1, fl) == Ok(l2) by {
      var rest := l1[..2] + l1[5..];
      assert rest == [ab, o2];
      assert rest[..0] + [cd] + rest[0..] == l2;
    }
    PassFold(Comparison, l1, 2, 0, 1, fl, l2);
  }

  lemma MisplacedLast(ab: MathToken, o2: MathToken, cd: MathToken, fl: Floats)
    requires ab.IsDataType() && cd.IsDataType() && IsComparison(o2.tokenType)
    ensures TierLoop(Comparison, [cd, ab, o2], 3, 0, 1, fl) == Err(MissingOperand)
  {
    var l2 := [cd, ab, o2];
    PassWrap(Comparison, l2, 3, 0, 1, fl);
    PassSkip(Comparison, l2, 0, 1, 1, fl);
  }

  /** As written, in the comparison pass `a o1 b o2 c == d`, with `c` and
      `d` strings or booleans, aborts: the fold of `c == d` lands at the
      front instead of after `o2`, so `o2` ends up last with no right operand. */
  lemma MisplacedEqualityPass(a: MathToken, o1: MathToken, b: MathToken, o2: MathToken, c: MathToken,
                              o3: MathToken, d: MathToken, ab: MathToken, cd: MathToken, fl: Floats)
    requires a.IsDataType() && b.IsDataType() && c.IsDataType() && d.IsDataType()
    requires IsComparison(o1.tokenType) && IsComparison(o2.tokenType)
    requires (o3.tokenType == EqualTo || o3.tokenType == NotEqualTo) && (c.tokenType == String || c.tokenType == Boolean)
    requires Combine(o1.tokenType, a, b, fl) == Ok(ab) && Combine(o3.tokenType, c, d, fl) == Ok(cd)
    ensures TierLoop(Comparison, [a, o1, b, o2, c, o3, d], -1, 0, 1, fl) == Err(MissingOperand)
  {
    MisplacedFirst(a, o1, b, o2, c, o3, d, ab, fl);
    MisplacedSecond(ab, o2, c, o3, d, cd, fl);
    MisplacedLast(ab, o2, cd, fl);
  }

  /** An expression whose only operators are comparisons reaches the
      comparison pass unchanged, with the `+ -` pass stopped at index 1. */
  lemma ComparisonsOnly(l0: seq<MathToken>, e: EvalError, fl: Floats)
    requires |l0| >= 2 && NoParens(l0) && NoOperators(MulDiv, l0) && NoOperators(AddSub, l0)
    requires TierLoop(Comparison, l0, -1, 0, 1, fl) == Err(e)
    ensures EvalTokens(l0, fl) == Err(e)
  {
    PlainEval(l0, fl);
    PassWithoutOperators(MulDiv, l0, -1, 0, 0, fl);
    PassWithoutOperators(AddSub, l0, -1, 0, 0, fl);
  }

  /** As written, `a == b == c == d` with `c` and `d` strings or booleans
      aborts. */
  lemma MisplacedEqualityFails(a: MathToken, o1: MathToken, b: MathToken, o2: MathToken, c: MathToken,
                               o3: MathToken, d: MathToken, ab: MathToken, cd: MathToken, fl: Floats)
    requires a.IsDataType() && b.IsDataType() && c.IsDataType() && d.IsDataType()
    requires o1.tokenType == EqualTo && o2.tokenType == EqualTo && o3.tokenType == EqualTo
    requires c.tokenType == String || c.tokenType == Boolean
    requires Combine(o1.tokenType, a, b, fl) == Ok(ab) && Combine(o3.tokenType, c, d, fl) == Ok(cd)
    ensures EvalTokens([a, o1, b, o2, c, o3, d], fl) == Err(MissingOperand)
  {
    hide EvalTokens; hide Tiers; hide TierLoop; hide PartitionFrom; hide Combine;
    var l0 := [a, o1, b, o2, c, o3, d];
    assert TierLoop(Comparison, l0, -1, 0, 1, fl) == Err(MissingOperand) by {
      MisplacedEqualityPass(a, o1, b, o2, c, o3, d, ab, cd, fl);
    }
    assert NoParens(l0) && NoOperators(MulDiv, l0) && NoOperators(AddSub, l0) by {
      forall k | 0 <= k < 7
        ensures !IsParen(l0[k]) && !InTier(MulDiv, l0[k].tokenType) && !InTier(AddSub, l0[k].tokenType)
      {
        assert k in {0, 1, 2, 3, 4, 5, 6};
      }
    }
    ComparisonsOnly(l0, MissingOperand, fl);
  }

  /** As written, `1 == 1 == true == true` aborts: the fold of
      `true == true` lands at the front. */
  lemma MisplacedEquality(fl: Floats)
    ensures EvalTokens([Num("1", 1), Op(EqualTo, 3), Num("1", 6), Op(EqualTo, 8),
                        Bool("true", 11), Op(EqualTo, 16), Bool("true", 19)], fl)
      == Err(MissingOperand)
  {
    hide EvalTokens; hide Tiers; hide TierLoop; hide PartitionFrom; hide ParseInt; hide Combine;
    EqualityFolds(fl);
    MisplacedEqualityFails(Num("1", 1), Op(EqualTo, 3), Num("1", 6), Op(EqualTo, 8), Bool("true", 11),
                           Op(EqualTo, 16), Bool("true", 19), Bool("true", 6), Bool("true", 19), fl);
  }

  /** The corrected pass folds the three operations of
      `a o1 b o2 c o3 d` from left to right. */
  lemma FixedFoldsOfSeven(t: Tier, a: MathToken, o1: MathToken, b: MathToken, o2: MathToken, c: MathToken,
                          o3: MathToken, d: MathToken, v1: MathToken, v2: MathToken, v3: MathToken, fl: Floats)
    requires !InTier(t, a.tokenType) && InTier(t, o1.tokenType) && InTier(t, o2.tokenType) && InTier(t, o3.tokenType)
    requires Combine(o1.tokenType, a, b, fl) == Ok(v1)
    requires Combine(o2.tokenType, v1, c, fl) == Ok(v2)
    requires Combine(o3.tokenType, v2, d, fl) == Ok(v3)
    ensures TierLoopFixed(t, [a, o1, b, o2, c, o3, d], -1, 0, fl) == Ok(([v3], 0))
  {
    var l0 := [a, o1, b, o2, c, o3, d];
    var l1 := [v1, o2, c, o3, d];
    var l2 := [v2, o3, d];
    FrontOfSeven(a, o1, b, o2, c, o3, d, v1);
    FoldsOfFive(v1, o2, c, o3, d, v2);
    assert [v3] + l2[3..] == [v3];
    assert TierLoopFixed(t, l0, -1, 0, fl) == TierLoopFixed(t, l0, 0, 0, fl);
    FixedFrontFold(t, l0, fl, v1);
    FixedFrontFold(t, l1, fl, v2);
    FixedFrontFold(t, l2, fl, v3);
  }

  lemma OneEqualsOne(fl: Floats)
    ensures Combine(EqualTo, Num("1", 1), Num("1", 6), fl) == Ok(Bool("true", 6))
  {
    hide Combine; hide ParseInt; hide BoolText;
    ParseSmall();
    CombineIntegers(EqualTo, Num("1", 1), Num("1", 6), 1, 1, fl);
  }

  /** The folds of `1 == 1 == true == true`. */
  lemma EqualityFolds(fl: Floats)
    ensures Combine(EqualTo, Num("1", 1), Num("1", 6), fl) == Ok(Bool("true", 6))
    ensures Combine(EqualTo, Bool("true", 6), Bool("true", 11), fl) == Ok(Bool("true", 11))
    ensures Combine(EqualTo, Bool("true", 11), Bool("true", 19), fl) == Ok(Bool("true", 19))
  {
    hide Combine; hide ParseInt; hide BoolText;
    OneEqualsOne(fl);
    assert Combine(EqualTo, Bool("true", 6), Bool("true", 11), fl) == Ok(Bool("true", 11)) by {
      BooleanOperators(EqualTo, Bool("true", 6), Bool("true", 11), fl);
    }
    BooleanOperators(EqualTo, Bool("true", 11), Bool("true", 19), fl);
  }

  /** With the folded token kept in place of its operands, the comparison
      pass reads `1 == 1 == true == true` from left to right and gives `true`. */
  lemma FixedEquality(fl: Floats)
    ensures TierLoopFixed(Comparison, [Num("1", 1), Op(EqualTo, 3), Num("1", 6), Op(EqualTo, 8),
                                       Bool("true", 11), Op(EqualTo, 16), Bool("true", 19)], -1, 0, fl)
      == Ok(([Bool("true", 19)], 0))
  {
    hide TierLoopFixed; hide ParseInt; hide Combine;
    EqualityFolds(fl);
    FixedFoldsOfSeven(Comparison, Num("1", 1), Op(EqualTo, 3), Num("1", 6), Op(EqualTo, 8), Bool("true", 11),
                      Op(EqualTo, 16), Bool("true", 19), Bool("true", 6), Bool("true", 11), Bool("true", 19), fl);
  }

  predicate NoEquality(list: seq<MathToken>) {
    forall k :: 0 <= k < |list| ==> list[k].tokenType != EqualTo && list[k].tokenType != NotEqualTo
  }

  /** Away from `==` and `!=`, the source's fold and the in-place fold agree. */
  lemma ReduceAgrees(list: seq<MathToken>, i: int, addIdx: int, fl: Floats)
    requires 0 <= i < |list| && list[i].tokenType != EqualTo && list[i].tokenType != NotEqualTo
    ensures Reduce(list, i, addIdx, fl) == ReduceInPlace(list, i, fl)
  {
    if 1 <= i && i + 1 < |list| && Combine(list[i].tokenType, list[i - 1], list[i + 1], fl).Ok? {
      ReduceAt(list, i, addIdx, fl, Combine(list[i].tokenType, list[i - 1], list[i + 1], fl).value);
    }
  }

  /** Without `==` or `!=` in the list, correcting the slot changes nothing:
      the slot-corrected pass is the source's pass, for every pass. */
  lemma {:induction false} SlotFixedAgrees(t: Tier, list: seq<MathToken>, idx: int, rounds: int, addIdx: int, fl: Floats)
    requires -1 <= idx && 0 <= rounds <= 2 && NoEquality(list)
    ensures TierLoopSlotFixed(t, list, idx, rounds, fl) == TierLoop(t, list, idx, rounds, addIdx, fl)
    decreases |list|, 2 - rounds, |list| - idx
  {
    hide Reduce; hide ReduceInPlace; hide Combine;
    if |list| == 1 || rounds > 1 {
    } else {
      var wrap := idx + 1 >= |list|;
      var i := if wrap then 0 else idx + 1;
      var r := if wrap then rounds + 1 else rounds;
      if i >= |list| {
      } else if InTier(t, list[i].tokenType) {
        ReduceAgrees(list, i, addIdx, fl);
        var f := ReduceInPlace(list, i, fl);
        if f.Ok? {
          var next := f.value;
          var c := Combine(list[i].tokenType, list[i - 1], list[i + 1], fl).value;
          assert next == list[..i - 1] + [c] + list[i + 2..];
          assert NoEquality(next) by {
            forall k | 0 <= k < |next|
              ensures next[k].tokenType != EqualTo && next[k].tokenType != NotEqualTo
            {
              if k < i - 1 { assert next[k] == list[k]; }
              else if k > i - 1 { assert next[k] == list[k + 2]; }
              else { assert next[k] == c && c.IsDataType(); }
            }
          }
          SlotFixedAgrees(t, next, i, 0, addIdx, fl);
        }
      } else {
        SlotFixedAgrees(t, list, i, r, addIdx, fl);
      }
    }
  }

  /** The slot alone is the cause: keeping the source's resume step and
      correcting only where the fold goes, `1 == 1 == true == true` gives
      `true`. */
  lemma SlotFixedEquality(fl: Floats)
    ensures TierLoopSlotFixed(Comparison, [Num("1", 1), Op(EqualTo, 3), Num("1", 6), Op(EqualTo, 8),
                                           Bool("true", 11), Op(EqualTo, 16), Bool("true", 19)], -1, 0, fl)
      == Ok(([Bool("true", 19)], 1))
  {
    EqualityFolds(fl);
    BooleanOperators(EqualTo, Bool("true", 6), Bool("true", 19), fl);
    hide Combine; hide ParseInt;
    var l0 := [Num("1", 1), Op(EqualTo, 3), Num("1", 6), Op(EqualTo, 8), Bool("true", 11), Op(EqualTo, 16), Bool("true", 19)];
    var l1 := [Bool("true", 6), Op(EqualTo, 8), Bool("true", 11), Op(EqualTo, 16), Bool("true", 19)];
    var l2 := [Bool("true", 6), Op(EqualTo, 8), Bool("true", 19)];
    assert l0[..0] + [Bool("true", 6)] + l0[3..] == l1;
    assert ReduceInPlace(l0, 1, fl) == Ok(l1);
    assert TierLoopSlotFixed(Comparison, l0, -1, 0, fl) == TierLoopSlotFixed(Comparison, l0, 0, 0, fl)
        == TierLoopSlotFixed(Comparison, l1, 1, 0, fl);
    assert l1[..2] + [Bool("true", 19)] + l1[5..] == l2;
    assert ReduceInPlace(l1, 3, fl) == Ok(l2);
    assert TierLoopSlotFixed(Comparison, l1, 1, 0, fl) == TierLoopSlotFixed(Comparison, l1, 2, 0, fl)
        == TierLoopSlotFixed(Comparison, l2, 3, 0, fl);
    assert l2[..0] + [Bool("true", 19)] + l2[3..] == [Bool("true", 19)];
    assert ReduceInPlace(l2, 1, fl) == Ok([Bool("true", 19)]);
    assert TierLoopSlotFixed(Comparison, l2, 3, 0, fl) == TierLoopSlotFixed(Comparison, l2, 0, 1, fl)
        == TierLoopSlotFixed(Comparison, [Bool("true", 19)], 1, 0, fl);
  }
}
