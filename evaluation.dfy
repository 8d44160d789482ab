/** What one call of `Expr` computes, as functions of the text and the
    position the cursor starts from: the sentence INTEGER (PLUS|MINUS)
    INTEGER, read through four scans, and its value in Go's `int`. */
module Evaluation {
  import opened Results
  import opened Chars
  import opened GoInt
  import opened Tokens
  import opened Scanner

  /** A parsed sentence: both operands, the operator, and the token (with
      the cursor after it) that the last `Eat(INTEGER)` leaves current. */
  datatype Sentence = Sentence(left: int, op: TokenType, right: int, lookahead: Token, next: nat)

  /** The four scans of `Expr`: the left operand, the operator, the right
      operand, and the token fetched when the right operand is eaten.
      An operator other than PLUS is checked against MINUS. */
  function ParseExpr(text: seq<Byte>, pos: nat): (r: Result<Sentence>)
    ensures r.Ok? ==> r.value.op == PLUS || r.value.op == MINUS
    ensures r.Ok? ==> 0 <= r.value.left <= MaxInt && 0 <= r.value.right <= MaxInt
  {
    var s1 := NextToken(text, pos);
    if s1.token.Err? then Err(s1.token.error)
    else if s1.token.value.kind != INTEGER then Err(EatMismatch)
    else
      var s2 := NextToken(text, s1.next);
      if s2.token.Err? then Err(s2.token.error)
      else
        var op := s2.token.value.kind;
        if op != PLUS && op != MINUS then Err(EatMismatch)
        else
          var s3 := NextToken(text, s2.next);
          if s3.token.Err? then Err(s3.token.error)
          else if s3.token.value.kind != INTEGER then Err(EatMismatch)
          else
            var s4 := NextToken(text, s3.next);
            if s4.token.Err? then Err(s4.token.error)
            else Ok(Sentence(s1.token.value.value.n, op, s3.token.value.value.n, s4.token.value, s4.next))
  }

  /** `lVal + rVal` or `lVal - rVal` in Go's 64-bit `int`. */
  function Apply(op: TokenType, l: int, r: int): (v: int)
    requires InRange(l) && InRange(r)
    ensures InRange(v)
    ensures op == PLUS && InRange(l + r) ==> v == l + r
    ensures op != PLUS && InRange(l - r) ==> v == l - r
  {
    if op == PLUS then Add(l, r) else Sub(l, r)
  }

  /** The value `Expr` returns, or the panic it raises. */
  function Evaluate(text: seq<Byte>, pos: nat): (r: Result<int>)
    ensures r.Ok? <==> ParseExpr(text, pos).Ok?
  {
    match ParseExpr(text, pos)
    case Ok(st) => Ok(Apply(st.op, st.left, st.right))
    case Err(e) => Err(e)
  }

  /** On operands the scanner can produce, subtraction is exact and
      addition is exact unless the sum passes MaxInt, when it wraps to a
      negative number. */
  lemma ApplyExact(l: int, r: int)
    requires 0 <= l <= MaxInt && 0 <= r <= MaxInt
    ensures Apply(MINUS, l, r) == l - r
    ensures l + r <= MaxInt ==> Apply(PLUS, l, r) == l + r
    ensures l + r > MaxInt ==> Apply(PLUS, l, r) == l + r - Modulus < 0
  {
  }

  /** The shape of a text `Expr` accepts: whitespace on [0, a), a numeral on
      [a, b), whitespace on [b, c), '+' or '-' at c, whitespace on
      [c + 1, e), a numeral on [e, f), and then no further digit. */
  predicate IsSentence(text: seq<Byte>, a: nat, b: nat, c: nat, e: nat, f: nat) {
    && a < b <= c < e < f <= |text|
    && AllSpaces(text[..a]) && AllDigits(text[a..b]) && AllSpaces(text[b..c])
    && (text[c] == '+' || text[c] == '-')
    && AllSpaces(text[c + 1..e]) && AllDigits(text[e..f])
    && (f < |text| ==> !IsDigit(text[f]))
  }

  function OpOf(o: Byte): TokenType {
    if o == '+' then PLUS else MINUS
  }

  /** Three successful scans of the right kinds make `Expr` succeed when
      the fourth scan does, and raise its error when it does not. */
  lemma EvaluateOfScans(text: seq<Byte>, p0: nat, l: int, p1: nat, op: Token, p2: nat, r: int, p3: nat)
    requires NextToken(text, p0) == Scan(Ok(Token(INTEGER, IntValue(l))), p1)
    requires NextToken(text, p1) == Scan(Ok(op), p2) && (op.kind == PLUS || op.kind == MINUS)
    requires NextToken(text, p2) == Scan(Ok(Token(INTEGER, IntValue(r))), p3)
    ensures Evaluate(text, p0) == if NextToken(text, p3).token.Ok? then Ok(Apply(op.kind, l, r))
                                  else Err(NextToken(text, p3).token.error)
    ensures ParseExpr(text, p0).Ok? ==>
      ParseExpr(text, p0).value == Sentence(l, op.kind, r, NextToken(text, p3).token.value, NextToken(text, p3).next)
  {
  }

  /** A text that does not start with an INTEGER token is refused by the
      first `Eat(INTEGER)`. */
  lemma LeftOperandMismatch(text: seq<Byte>, p0: nat, t: Token)
    requires NextToken(text, p0).token == Ok(t) && t.kind != INTEGER
    ensures Evaluate(text, p0) == Err(EatMismatch)
  {
  }

  /** Any token other than PLUS in operator position goes to `Eat(MINUS)`,
      so an INTEGER or EOF there is refused. */
  lemma OperatorMismatch(text: seq<Byte>, p0: nat, l: int, p1: nat, t: Token)
    requires NextToken(text, p0) == Scan(Ok(Token(INTEGER, IntValue(l))), p1)
    requires NextToken(text, p1).token == Ok(t) && t.kind != PLUS && t.kind != MINUS
    ensures Evaluate(text, p0) == Err(EatMismatch)
  {
  }

  /** Every text of that shape whose numerals fit in an `int`, and whose
      next token scans, evaluates to the two numerals combined by the
      operator; the text beyond that next token is never looked at. */
  lemma EvaluateSentence(text: seq<Byte>, a: nat, b: nat, c: nat, e: nat, f: nat)
    requires IsSentence(text, a, b, c, e, f)
    requires DecimalValue(text[a..b]) <= MaxInt && DecimalValue(text[e..f]) <= MaxInt
    requires NextToken(text, f).token.Ok?
    ensures Evaluate(text, 0) == Ok(Apply(OpOf(text[c]), DecimalValue(text[a..b]), DecimalValue(text[e..f])))
  {
    var l, opTok, r := SentenceScans(text, a, b, c, e, f);
    EvaluateOfScans(text, 0, l, b, opTok, c + 1, r, f);
  }

  /** The first three scans of a sentence whose numerals fit in an `int`. */
  lemma SentenceScans(text: seq<Byte>, a: nat, b: nat, c: nat, e: nat, f: nat) returns (l: int, opTok: Token, r: int)
    requires IsSentence(text, a, b, c, e, f)
    requires DecimalValue(text[a..b]) <= MaxInt && DecimalValue(text[e..f]) <= MaxInt
    ensures l == DecimalValue(text[a..b]) && r == DecimalValue(text[e..f]) && opTok.kind == OpOf(text[c])
    ensures NextToken(text, 0) == Scan(Ok(Token(INTEGER, IntValue(l))), b)
    ensures NextToken(text, b) == Scan(Ok(opTok), c + 1) && (opTok.kind == PLUS || opTok.kind == MINUS)
    ensures NextToken(text, c + 1) == Scan(Ok(Token(INTEGER, IntValue(r))), f)
  {
    l, r := DecimalValue(text[a..b]), DecimalValue(text[e..f]);
    LeftOperandScan(text, a, b, c);
    OperatorScan(text, b, c);
    ScanInteger(text, c + 1, e, f);
    opTok := if text[c] == '+' then PlusToken else MinusToken;
  }

  lemma LeftOperandScan(text: seq<Byte>, a: nat, b: nat, c: nat)
    requires a < b <= c < |text| && (text[c] == '+' || text[c] == '-')
    requires AllSpaces(text[..a]) && AllDigits(text[a..b]) && AllSpaces(text[b..c])
    ensures NextToken(text, 0) == Scan(
              if DecimalValue(text[a..b]) <= MaxInt then Ok(Token(INTEGER, IntValue(DecimalValue(text[a..b]))))
              else Err(IntegerRange),
              b)
  {
    assert text[..a] == text[0..a];
    assert !IsDigit(text[b]) by {
      if b < c {
        assert text[b] == text[b..c][0];
      }
    }
    ScanInteger(text, 0, a, b);
  }

  lemma OperatorScan(text: seq<Byte>, b: nat, c: nat)
    requires b <= c < |text| && (text[c] == '+' || text[c] == '-') && AllSpaces(text[b..c])
    ensures NextToken(text, b) == Scan(Ok(if text[c] == '+' then PlusToken else MinusToken), c + 1)
  {
    ScanCharacter(text, b, c);
  }

  /** Conversely, every text `Expr` accepts has that shape, and its value is
      the two numerals combined by the operator. */
  lemma SentenceOfEvaluate(text: seq<Byte>)
    requires Evaluate(text, 0).Ok?
    ensures exists a: nat, b: nat, c: nat, e: nat, f: nat ::
      && IsSentence(text, a, b, c, e, f)
      && DecimalValue(text[a..b]) <= MaxInt && DecimalValue(text[e..f]) <= MaxInt
      && NextToken(text, f).token.Ok?
      && Evaluate(text, 0) == Ok(Apply(OpOf(text[c]), DecimalValue(text[a..b]), DecimalValue(text[e..f])))
  {
    var l, op, r, b, d, f := ScansOfEvaluate(text);
    IntegerScanned(text, 0, l);
    OperatorScanned(text, b, op);
    IntegerScanned(text, d, r);
    var a, c, e := SpaceRunEnd(text, 0), SpaceRunEnd(text, b), SpaceRunEnd(text, d);
    assert text[..a] == text[0..a];
    assert IsSentence(text, a, b, c, e, f);
  }

  /** The scans behind an accepted text: the left operand ends at b, the
      operator at d, the right operand at f. */
  lemma ScansOfEvaluate(text: seq<Byte>) returns (l: int, op: Token, r: int, b: nat, d: nat, f: nat)
    requires Evaluate(text, 0).Ok?
    ensures NextToken(text, 0) == Scan(Ok(Token(INTEGER, IntValue(l))), b)
    ensures NextToken(text, b) == Scan(Ok(op), d) && (op.kind == PLUS || op.kind == MINUS)
    ensures NextToken(text, d) == Scan(Ok(Token(INTEGER, IntValue(r))), f)
    ensures NextToken(text, f).token.Ok?
    ensures Evaluate(text, 0) == Ok(Apply(op.kind, l, r))
  {
    var s1 := NextToken(text, 0);
    var s2 := NextToken(text, s1.next);
    var s3 := NextToken(text, s2.next);
    l, op, r := s1.token.value.value.n, s2.token.value, s3.token.value.value.n;
    b, d, f := s1.next, s2.next, s3.next;
  }

  /** The token after the right operand is scanned but never checked to be
      EOF: whatever follows a complete sentence is ignored when it starts
      with a token that scans, and its error is raised when it does not. */
  lemma EvaluateTrailingError(text: seq<Byte>, a: nat, b: nat, c: nat, e: nat, f: nat)
    requires IsSentence(text, a, b, c, e, f)
    requires DecimalValue(text[a..b]) <= MaxInt && DecimalValue(text[e..f]) <= MaxInt
    requires NextToken(text, f).token.Err?
    ensures Evaluate(text, 0) == Err(NextToken(text, f).token.error)
  {
    var l, opTok, r := SentenceScans(text, a, b, c, e, f);
    EvaluateOfScans(text, 0, l, b, opTok, c + 1, r, f);
  }
}
