/** What one call of `getNextToken` does to the cursor, as functions of
    the text and the position the call starts from. */
module Scanner {
  import opened Results
  import opened Chars
  import opened GoInt
  import opened Tokens

  /** The cursor's current character: nil once the position has passed
      the last byte. */
  function CharAt(text: seq<Byte>, pos: nat): (c: Option<Byte>)
    ensures c.None? <==> |text| <= pos
    ensures c.Some? ==> c.value == text[pos]
  {
    if pos < |text| then Some(text[pos]) else None
  }

  /** Where a run of whitespace starting at `pos` ends: the first
      position at or after `pos` holding no whitespace character. */
  function SpaceRunEnd(text: seq<Byte>, pos: nat): (p: nat)
    decreases |text| - pos
    ensures pos <= p && (p == pos || p <= |text|)
    ensures p < |text| ==> !IsSpace(text[p])
  {
    if pos < |text| && IsSpace(text[pos]) then SpaceRunEnd(text, pos + 1) else pos
  }

  /** Every character before the end of the run is whitespace. */
  lemma {:induction false} SpaceRunEndSkips(text: seq<Byte>, pos: nat)
    ensures forall k :: pos <= k < SpaceRunEnd(text, pos) ==> IsSpace(text[k])
    decreases |text| - pos
  {
    if pos < |text| && IsSpace(text[pos]) {
      SpaceRunEndSkips(text, pos + 1);
    }
  }

  /** The maximal run of digits starting at `pos`. */
  function DigitRun(text: seq<Byte>, pos: nat): (run: string)
    decreases |text| - pos
    ensures AllDigits(run)
    ensures run != [] ==> pos + |run| <= |text|
    ensures pos + |run| < |text| ==> !IsDigit(text[pos + |run|])
  {
    if pos < |text| && IsDigit(text[pos]) then [text[pos]] + DigitRun(text, pos + 1) else []
  }

  /** The run, as a slice of the text. */
  lemma {:induction false} DigitRunSlice(text: seq<Byte>, pos: nat)
    requires DigitRun(text, pos) != []
    ensures text[pos..pos + |DigitRun(text, pos)|] == DigitRun(text, pos)
    decreases |text| - pos
  {
    var run := DigitRun(text, pos);
    if DigitRun(text, pos + 1) != [] {
      DigitRunSlice(text, pos + 1);
      assert text[pos..pos + |run|] == [text[pos]] + text[pos + 1..pos + |run|];
    }
  }

  /** The outcome of one scan: the token or the panic, and where the
      cursor is left. */
  datatype Scan = Scan(token: Result<Token>, next: nat)

  /** One call of `getNextToken` from position `pos`: skip whitespace, then
      read a maximal digit run as INTEGER, '+' as PLUS or '-' as MINUS, or
      report EOF at the end of the text; any other character is an error. */
  function NextToken(text: seq<Byte>, pos: nat): (s: Scan)
    ensures pos <= s.next
    ensures s.token.Ok? ==> WellFormed(s.token.value)
    ensures s.token.Ok? && s.token.value.kind == INTEGER ==> 0 <= s.token.value.value.n <= MaxInt
  {
    var p := SpaceRunEnd(text, pos);
    if |text| <= p then Scan(Ok(EofToken), p)
    else if IsDigit(text[p]) then
      var run := DigitRun(text, p);
      var next := p + |run|;
      match Atoi(run)
      case Ok(n) => Scan(Ok(Token(INTEGER, IntValue(n))), next)
      case Err(e) => Scan(Err(e), next)
    else if text[p] == '+' then Scan(Ok(PlusToken), p + 1)
    else if text[p] == '-' then Scan(Ok(MinusToken), p + 1)
    else Scan(Err(NoMatch), p)
  }

  /** The end of a whitespace run is determined by the characters alone. */
  lemma {:induction false} SpaceRunEndIs(text: seq<Byte>, pos: nat, q: nat)
    requires pos <= q && (q == pos || q <= |text|)
    requires forall k :: pos <= k < q ==> IsSpace(text[k])
    requires q < |text| ==> !IsSpace(text[q])
    ensures SpaceRunEnd(text, pos) == q
    decreases q - pos
  {
    if pos < q {
      SpaceRunEndIs(text, pos + 1, q);
    }
  }

  /** The maximal digit run is determined by the characters alone. */
  lemma {:induction false} DigitRunIs(text: seq<Byte>, pos: nat, d: string)
    requires pos + |d| <= |text| && text[pos..pos + |d|] == d && AllDigits(d)
    requires pos + |d| < |text| ==> !IsDigit(text[pos + |d|])
    ensures DigitRun(text, pos) == d
    decreases |d|
  {
    if d != [] {
      assert text[pos + 1..pos + |d|] == d[1..];
      DigitRunIs(text, pos + 1, d[1..]);
    }
  }

  /** Whitespace on [pos, a) then a maximal digit run on [a, b) scan as one
      INTEGER token holding the run's value, or as a range error when the
      value exceeds MaxInt; either way the cursor stops at b. */
  lemma ScanInteger(text: seq<Byte>, pos: nat, a: nat, b: nat)
    requires pos <= a < b <= |text|
    requires AllSpaces(text[pos..a]) && AllDigits(text[a..b])
    requires b < |text| ==> !IsDigit(text[b])
    ensures NextToken(text, pos) == Scan(
              if DecimalValue(text[a..b]) <= MaxInt then Ok(Token(INTEGER, IntValue(DecimalValue(text[a..b]))))
              else Err(IntegerRange),
              b)
  {
    SpacesAt(text, pos, a);
    assert text[a] == text[a..b][0];
    SpaceRunEndIs(text, pos, a);
    DigitRunIs(text, a, text[a..b]);
  }

  /** Whitespace on [pos, c) then a character that is no digit: '+' and '-'
      scan as PLUS and MINUS and move one position past it, anything else
      is an error that leaves the cursor on it. */
  lemma ScanCharacter(text: seq<Byte>, pos: nat, c: nat)
    requires pos <= c < |text|
    requires AllSpaces(text[pos..c]) && !IsSpace(text[c]) && !IsDigit(text[c])
    ensures NextToken(text, pos) ==
      if text[c] == '+' then Scan(Ok(PlusToken), c + 1)
      else if text[c] == '-' then Scan(Ok(MinusToken), c + 1)
      else Scan(Err(NoMatch), c)
  {
    SpacesAt(text, pos, c);
    SpaceRunEndIs(text, pos, c);
  }

  lemma SpacesAt(text: seq<Byte>, pos: nat, a: nat)
    requires pos <= a <= |text| && AllSpaces(text[pos..a])
    ensures forall k :: pos <= k < a ==> IsSpace(text[k])
  {
    AllSpacesAt(text[pos..a]);
    forall k | pos <= k < a
      ensures IsSpace(text[k])
    {
      assert text[k] == text[pos..a][k - pos];
    }
  }

  /** The scan yields EOF exactly when only whitespace is left, and then
      leaves the cursor at the end of the text (or where it already was,
      past the end). */
  lemma ScanEof(text: seq<Byte>, pos: nat)
    ensures NextToken(text, pos).token == Ok(EofToken)
        <==> pos >= |text| || AllSpaces(text[pos..])
    ensures NextToken(text, pos).token == Ok(EofToken)
        ==> NextToken(text, pos).next == if pos < |text| then |text| else pos
  {
    if pos < |text| {
      AllSpacesAt(text[pos..]);
    }
    if pos < |text| && AllSpaces(text[pos..]) {
      SpaceRunEndIs(text, pos, |text|);
    }
    if pos < |text| && NextToken(text, pos).token == Ok(EofToken) {
      var p := SpaceRunEnd(text, pos);
      SpaceRunEndSkips(text, pos);
      forall i | 0 <= i < |text| - pos
        ensures IsSpace(text[pos..][i])
      {
        assert pos <= pos + i < p;
      }
    }
  }

  /** Once EOF is reached, scanning again returns EOF and does not move the
      cursor, however often it is repeated. */
  lemma EofIsIdempotent(text: seq<Byte>, pos: nat)
    requires NextToken(text, pos).token == Ok(EofToken)
    ensures NextToken(text, NextToken(text, pos).next) == Scan(Ok(EofToken), NextToken(text, pos).next)
  {
  }

  /** Every token other than EOF consumes at least its own character, and
      no scan moves the cursor past the end of the text. */
  lemma ScanProgress(text: seq<Byte>, pos: nat)
    requires pos <= |text|
    ensures NextToken(text, pos).next <= |text|
    ensures NextToken(text, pos).token.Ok? && NextToken(text, pos).token.value.kind != EOF
        ==> pos < NextToken(text, pos).next
  {
  }

  /** A scan reaches `integer` only on a digit, so the run it converts is
      never empty and Atoi's syntax error never occurs. */
  lemma ScanNeverSyntaxError(text: seq<Byte>, pos: nat)
    ensures NextToken(text, pos).token != Err(IntegerSyntax)
  {
  }

  /** Conversely, an INTEGER token was read from a maximal digit run that
      follows only whitespace, and holds the run's value. */
  lemma IntegerScanned(text: seq<Byte>, pos: nat, n: int)
    requires NextToken(text, pos).token == Ok(Token(INTEGER, IntValue(n)))
    ensures var a, next := SpaceRunEnd(text, pos), NextToken(text, pos).next;
      && a < next <= |text|
      && AllSpaces(text[pos..a]) && AllDigits(text[a..next])
      && DecimalValue(text[a..next]) == n
      && (next < |text| ==> !IsDigit(text[next]))
  {
    var a := SpaceRunEnd(text, pos);
    SkippedAreSpaces(text, pos, a);
    DigitRunSlice(text, a);
  }

  /** Conversely, a PLUS or MINUS token was read from a '+' or '-' that
      follows only whitespace, and the cursor stops right after it. */
  lemma OperatorScanned(text: seq<Byte>, pos: nat, t: Token)
    requires NextToken(text, pos).token == Ok(t) && (t.kind == PLUS || t.kind == MINUS)
    ensures var a := SpaceRunEnd(text, pos);
      && a < |text| && NextToken(text, pos).next == a + 1
      && AllSpaces(text[pos..a])
      && text[a] == (if t.kind == PLUS then '+' else '-')
  {
    var a := SpaceRunEnd(text, pos);
    SkippedAreSpaces(text, pos, a);
  }

  /** The characters a scan skips form a whitespace string. */
  lemma SkippedAreSpaces(text: seq<Byte>, pos: nat, p: nat)
    requires p == SpaceRunEnd(text, pos) && p <= |text|
    ensures AllSpaces(text[pos..p])
  {
    SpaceRunEndSkips(text, pos);
    forall i | 0 <= i < p - pos
      ensures IsSpace(text[pos..p][i])
    {
      assert text[pos..p][i] == text[pos + i];
    }
    AllSpacesAt(text[pos..p]);
  }
}
