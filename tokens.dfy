/** Tokens of the calculator and their printed form. */
module Tokens {
  import opened Chars

  datatype TokenType = INTEGER | PLUS | MINUS | EOF {
    /** The string constant that names the type. */
    function Name(): (s: string)
      ensures 0 < |s| && forall i :: 0 <= i < |s| ==> 'A' <= s[i] <= 'Z'
    {
      match this
      case INTEGER => "INTEGER"
      case PLUS => "PLUS"
      case MINUS => "MINUS"
      case EOF => "EOF"
    }
  }

  /** The dynamically typed payload of a token: an int, a string or nil. */
  datatype Value = IntValue(n: int) | StrValue(s: string) | NilValue

  datatype Token = Token(kind: TokenType, value: Value) {
    /** `Token({%v}, {%v})` of the type and the payload: the type's name
        sits between `Token({` and the first `}`, and the payload between
        the following `, {` and the closing `})`. */
    function String(): (s: string)
      ensures 11 + |kind.Name()| <= |s| - 2
      ensures s[..7] == "Token({" && s[|s| - 2..] == "})"
      ensures s[7..7 + |kind.Name()|] == kind.Name() && s[7 + |kind.Name()|..11 + |kind.Name()|] == "}, {"
      ensures s[11 + |kind.Name()|..|s| - 2] == Format(value)
    {
      "Token({" + kind.Name() + "}, {" + Format(value) + "})"
    }
  }

  const EofToken: Token := Token(EOF, NilValue)
  const PlusToken: Token := Token(PLUS, StrValue("+"))
  const MinusToken: Token := Token(MINUS, StrValue("-"))

  /** What `%v` prints for each kind of payload. A printed int is never
      empty, and starts with '-' exactly when it is negative. */
  function Format(v: Value): (s: string)
    ensures v.IntValue? ==> 0 < |s| && (s[0] == '-' <==> v.n < 0)
    ensures v.StrValue? ==> s == v.s
  {
    match v
    case IntValue(n) => if n < 0 then "-" + DecimalString(-n) else DecimalString(n)
    case StrValue(s) => s
    case NilValue => "<nil>"
  }

  /** The payload the scanner attaches to each token type: the number for
      INTEGER, the operator itself for PLUS and MINUS, nil for EOF. */
  predicate WellFormed(t: Token) {
    match t.kind
    case INTEGER => t.value.IntValue?
    case PLUS => t.value == StrValue("+")
    case MINUS => t.value == StrValue("-")
    case EOF => t.value == NilValue
  }

  /** The one format the repository's test pins down, with the payload
      given as the string "3" (as in the test) or as the int 3. */
  lemma StringOfInteger3()
    ensures Token(INTEGER, StrValue("3")).String() == "Token({INTEGER}, {3})"
    ensures Token(INTEGER, IntValue(3)).String() == "Token({INTEGER}, {3})"
  {
  }

  /** Printing an int loses nothing: distinct ints print differently. */
  lemma FormatIntInjective(m: int, n: int)
    requires Format(IntValue(m)) == Format(IntValue(n))
    ensures m == n
  {
    if m < 0 {
      assert Format(IntValue(m))[1..] == DecimalString(-m);
      assert Format(IntValue(n))[1..] == DecimalString(-n);
      DecimalStringInjective(-m, -n);
    } else {
      DecimalStringInjective(m, n);
    }
  }

  /** Printing a scanner token loses nothing: distinct well-formed tokens
      print differently. */
  lemma StringInjective(t1: Token, t2: Token)
    requires WellFormed(t1) && WellFormed(t2)
    requires t1.String() == t2.String()
    ensures t1 == t2
  {
    var s := t1.String();
    var n1, n2 := t1.kind.Name(), t2.kind.Name();
    assert n1 == s[7..7 + |n1|] == n2;
    assert t1.kind == t2.kind;
    assert Format(t1.value) == s[11 + |n1|..|s| - 2] == Format(t2.value);
    if t1.kind == INTEGER {
      FormatIntInjective(t1.value.n, t2.value.n);
    }
  }
}
