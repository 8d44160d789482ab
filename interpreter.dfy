/** The interpreter object of simpleCalculator.go: a cursor over the text
    (position and current character), the current token, and the methods
    that move them. Each method is proved against the functions of
    Scanner and Evaluation. */
module Calculator {
  import opened Results
  import opened Chars
  import opened GoInt
  import opened Tokens
  import opened Scanner
  import opened Evaluation

  class Interpreter {
    const text: seq<Byte>
    var pos: nat
    var currentToken: Option<Token>
    var currentChar: Option<Byte>

    /** The cursor invariant: the current character is the byte at the
        position, or nil past the end; a current token carries the payload
        its type calls for. */
    ghost predicate Valid()
      reads this
      ensures Valid() ==> (currentChar.None? <==> |text| <= pos)
      ensures Valid() && currentToken.Some? && currentToken.value.kind == INTEGER ==> currentToken.value.value.IntValue?
    {
      && currentChar == CharAt(text, pos)
      && (currentToken.Some? ==> WellFormed(currentToken.value))
    }

    /** `NewInterpreter`: the cursor on the first byte, no current token.
        The text must not be empty, since its first byte is read. */
    constructor (text: seq<Byte>)
      requires text != []
      ensures Valid()
      ensures this.text == text && pos == 0 && currentChar == Some(text[0]) && currentToken == None
    {
      this.text := text;
      pos := 0;
      currentToken := None;
      currentChar := Some(text[0]);
    }

    /** Moves the cursor one byte on; the current character becomes nil
        once the position passes the last byte. */
    method Advance()
      modifies this`pos, this`currentChar
      ensures pos == old(pos) + 1
      ensures currentChar == if pos > |text| - 1 then None else Some(text[pos])
    {
      pos := pos + 1;
      if pos > |text| - 1 {
        currentChar := None;
      } else {
        currentChar := Some(text[pos]);
      }
    }

    /** Moves the cursor over the run of whitespace it stands on. */
    method SkipWhitespace()
      requires Valid()
      modifies this`pos, this`currentChar
      ensures Valid()
      ensures pos == SpaceRunEnd(text, old(pos))
      ensures old(pos) <= pos && forall k :: old(pos) <= k < pos ==> IsSpace(text[k])
      ensures currentChar.None? || !IsSpace(currentChar.value)
    {
      SpaceRunEndSkips(text, pos);
      while currentChar.Some? && IsSpace(currentChar.value)
        invariant Valid()
        invariant old(pos) <= pos
        invariant SpaceRunEnd(text, pos) == SpaceRunEnd(text, old(pos))
        decreases |text| - pos
      {
        Advance();
      }
    }

    /** Collects the run of digits the cursor stands on and converts it
        with Atoi. */
    method Integer() returns (r: Result<int>)
      requires Valid()
      modifies this`pos, this`currentChar
      ensures Valid()
      ensures pos == old(pos) + |DigitRun(text, old(pos))|
      ensures r == Atoi(DigitRun(text, old(pos)))
      ensures currentChar.None? || !IsDigit(currentChar.value)
      ensures old(currentChar).Some? && IsDigit(old(currentChar).value) && r.Err? ==> r.error == IntegerRange
    {
      var result: string := "";
      while currentChar.Some? && IsDigit(currentChar.value)
        invariant Valid()
        invariant AllDigits(result)
        invariant pos == old(pos) + |result|
        invariant result + DigitRun(text, pos) == DigitRun(text, old(pos))
        decreases |text| - pos
      {
        ghost var run := DigitRun(text, pos);
        assert run == [currentChar.value] + DigitRun(text, pos + 1);
        assert result + run == (result + [currentChar.value]) + DigitRun(text, pos + 1);
        result := result + [currentChar.value];
        Advance();
      }
      assert DigitRun(text, pos) == [];
      assert result == DigitRun(text, old(pos));
      r := Atoi(result);
    }

    /** Scans the next token from the cursor on. */
    method GetNextToken() returns (r: Result<Token>)
      requires Valid()
      modifies this`pos, this`currentChar
      ensures Valid()
      ensures r == NextToken(text, old(pos)).token && pos == NextToken(text, old(pos)).next
    {
      while currentChar.Some?
        invariant Valid()
        invariant old(pos) <= pos
        invariant SpaceRunEnd(text, pos) == SpaceRunEnd(text, old(pos))
        decreases |text| - pos
      {
        var c := currentChar.value;
        if IsSpace(c) {
          SkipWhitespace();
          continue;
        }
        if IsDigit(c) {
          var n := Integer();
          match n
          case Ok(v) => return Ok(Token(INTEGER, IntValue(v)));
          case Err(e) => return Err(e);
        }
        if c == '+' {
          Advance();
          return Ok(PlusToken);
        }
        if c == '-' {
          Advance();
          return Ok(MinusToken);
        }
        return Err(NoMatch);
      }
      return Ok(EofToken);
    }

    /** Consumes the current token if it has type `expected`, making the
        next scanned token current; fails otherwise. */
    method Eat(expected: TokenType) returns (o: Outcome)
      requires Valid() && currentToken.Some?
      modifies this`pos, this`currentChar, this`currentToken
      ensures Valid()
      ensures old(currentToken.value.kind) != expected ==>
        o == Fail(EatMismatch) && pos == old(pos) && currentToken == old(currentToken)
      ensures old(currentToken.value.kind) == expected ==>
        var s := NextToken(text, old(pos));
        && pos == s.next
        && (s.token.Ok? ==> o == Pass && currentToken == Some(s.token.value))
        && (s.token.Err? ==> o == Fail(s.token.error) && currentToken == old(currentToken))
    {
      if currentToken.value.kind == expected {
        var t := GetNextToken();
        match t
        case Ok(tok) =>
          currentToken := Some(tok);
          o := Pass;
        case Err(e) =>
          o := Fail(e);
      } else {
        o := Fail(EatMismatch);
      }
    }

    /** Reads INTEGER (PLUS|MINUS) INTEGER from the cursor on and returns
        the sum or the difference. */
    method Expr() returns (r: Result<int>)
      requires Valid()
      modifies this`pos, this`currentChar, this`currentToken
      ensures Valid()
      ensures r == Evaluate(text, old(pos))
      ensures r.Ok? ==>
        && pos == ParseExpr(text, old(pos)).value.next
        && currentToken == Some(ParseExpr(text, old(pos)).value.lookahead)
    {
      ghost var p0 := pos;
      ghost var s1 := NextToken(text, p0);
      var first := GetNextToken();
      if first.Err? {
        return Err(first.error);
      }
      currentToken := Some(first.value);

      var left := currentToken.value;
      var o := Eat(INTEGER);
      if o.Fail? {
        return Err(o.error);
      }
      ghost var s2 := NextToken(text, s1.next);
      var op := currentToken.value;
      if op.kind == PLUS {
        o := Eat(PLUS);
      } else {
        o := Eat(MINUS);
      }
      if o.Fail? {
        return Err(o.error);
      }
      ghost var s3 := NextToken(text, s2.next);

      var right := currentToken.value;
      o := Eat(INTEGER);
      if o.Fail? {
        return Err(o.error);
      }
      var lVal := left.value.n;
      var rVal := right.value.n;
      EvaluateOfScans(text, p0, lVal, s1.next, op, s2.next, rVal, s3.next);
      if op.kind == PLUS {
        r := Ok(Add(lVal, rVal));
      } else {
        r := Ok(Sub(lVal, rVal));
      }
    }
  }

  /** What `main` does with the line it reads: build an interpreter on it
      and evaluate one expression. The empty line makes `NewInterpreter`
      index out of range. */
  method Calculate(text: seq<Byte>) returns (r: Result<int>)
    ensures r == if text == [] then Err(EmptyText) else Evaluate(text, 0)
  {
    if text == [] {
      return Err(EmptyText);
    }
    var interpreter := new Interpreter(text);
    r := interpreter.Expr();
  }
}
