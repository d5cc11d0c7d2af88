// The scanner object: the input, a cursor into it and the tokens emitted so
// far. `Scan` drives `GetNextToken` over the input; both are proved to compute
// what `LexSpec.Lex` and `LexSpec.NextToken` say of the input that remains
// from the cursor on.

module Scanner {
  import opened Options
  import opened Tokens
  import opened Chars
  import opened Numbers
  import opened LexSpec

  class Lexer {
    var tokens: seq<Token>
    const contents: seq<char>
    var pos: nat

    constructor (contents: seq<char>)
      ensures this.contents == contents && pos == 0 && tokens == []
    {
      this.contents := contents;
      pos := 0;
      tokens := [];
    }

    /** The character `offset` places after the cursor, if the input has one. */
    function Scry(offset: nat): (r: Option<char>)
      reads this
      ensures r.Some? <==> pos + offset < |contents|
      ensures r.Some? ==> r.value == contents[pos + offset]
    {
      if pos + offset + 1 <= |contents| then Some(contents[pos + offset]) else None
    }

    /** The input from the cursor on; nothing once the cursor has left the input. */
    function Remaining(): (s: seq<char>)
      reads this
      ensures |s| == if pos <= |contents| then |contents| - pos else 0
      ensures forall i :: 0 <= i < |s| ==> Scry(i) == Some(s[i])
    {
      if pos <= |contents| then contents[pos..] else []
    }

    /** The cursor has left the input: there is no current character. */
    function IsFileEnd(): (b: bool)
      reads this
      ensures b <==> Scry(0).None?
    {
      pos >= |contents|
    }

    /**
     * Scans from the cursor to the end of the input, appending every token
     * but the `NoToken` marker. On success the tokens are the old ones
     * followed by what `Lex` gives for the input that remained, and the
     * cursor has reached the end; a failure is the first one `Lex` meets.
     */
    method Scan() returns (r: Result<seq<Token>>)
      modifies this`pos, this`tokens
      ensures r == Prefixed(old(tokens), Lex(old(Remaining())))
      ensures r.Ok? ==> tokens == r.value
      ensures r.Ok? ==> pos == if old(pos) < |contents| then |contents| else old(pos)
    {
      while !IsFileEnd()
        invariant old(pos) <= pos
        invariant old(pos) < |contents| ==> pos <= |contents|
        invariant old(pos) >= |contents| ==> pos == old(pos)
        invariant Prefixed(tokens, Lex(Remaining())) == Prefixed(old(tokens), Lex(old(Remaining())))
        decreases |contents| - pos
      {
        ghost var before, rest := tokens, Remaining();
        var current := GetNextToken();
        if current.Err? {
          assert Lex(rest) == Err(current.failure);
          return Err(current.failure);
        }
        LexUnfold(rest);
        PrefixedPrepend(before, current.value, Lex(rest[NextToken(rest).value.length..]));
        if current.value != NoToken {
          tokens := tokens + [current.value];
        }
        pos := pos + 1;
        assert Remaining() == rest[NextToken(rest).value.length..];
      }
      assert Lex(Remaining()) == Ok([]) && tokens + [] == tokens;
      r := Ok(tokens);
    }

    /**
     * One dispatch on the character at the cursor. It returns the token
     * `NextToken` gives and leaves the cursor on the last character that
     * token consumed; it fails where `NextToken` fails.
     */
    method GetNextToken() returns (r: Result<Token>)
      modifies this`pos
      ensures r.Ok? <==> NextToken(old(Remaining())).Ok?
      ensures r.Ok? ==> r.value == NextToken(old(Remaining())).value.token
      ensures r.Ok? ==> pos + 1 == old(pos) + NextToken(old(Remaining())).value.length
      ensures r.Err? ==> r.failure == NextToken(old(Remaining())).failure
    {
      if pos >= |contents| {
        return Err(OutOfBounds);
      }
      var c := contents[pos];
      match c
      case '#' =>
        // A line comment. The loop test is `||` where `&&` was meant: inside
        // the input it always holds, so the loop runs off the end.
        while c != '\n' || !IsFileEnd()
          invariant pos < |contents|
          decreases |contents| - pos
        {
          pos := pos + 1;
          if pos >= |contents| {
            return Err(OutOfBounds);
          }
          c := contents[pos];
        }
        assert false;
      case ':' => return Ok(Colon);
      case '(' => return Ok(LeftParen);
      case ')' => return Ok(RightParen);
      case '[' => return Ok(LeftSquare);
      case ']' => return Ok(RightSquare);
      case '{' => return Ok(LeftCurly);
      case '}' => return Ok(RightCurly);
      case '"' =>
        // The string loop runs only while `string_end` holds, and it starts
        // false: no character after the quote is read, and the step up is
        // undone at once.
        pos := pos + 1;
        pos := pos - 1;
        return Ok(String(Some("")));
      case '+' | '-' | '/' | '*' | '%' | '>' | '<' | '=' | '!' | '&' | '|' =>
        r := ScanOperator();
      case '¬' => return Ok(BitNot);
      case _ =>
        // The digit range is an arm of its own in the source; a Dafny match
        // has no range patterns, so it is tested here, ahead of the letters.
        if IsDigit(c) {
          r := ScanNumber();
          return;
        }
        if IsAlphabetic(c) {
          r := ScanWord();
          return;
        }
        // Anything else, white space and line breaks included, reaches the
        // final `return TokenTypes::None`.
        r := Ok(NoToken);
    }

    /**
     * The eleven operator arms: each looks one character ahead and takes
     * the two-character operator when that character completes one, and
     * the one-character operator otherwise (also at the end of the input).
     * Agrees with `OperatorStep`.
     */
    method ScanOperator() returns (r: Result<Token>)
      requires pos < |contents| && ShortForm(contents[pos]).Some?
      modifies this`pos
      ensures r.Ok? && r.value == OperatorStep(old(Remaining())).value.token
      ensures pos + 1 == old(pos) + OperatorStep(old(Remaining())).value.length
    {
      assert Remaining()[0] == contents[pos];
      assert |Remaining()| > 1 ==> Remaining()[1] == contents[pos + 1];
      match contents[pos]
      case '+' =>
        var next := Scry(1);
        if next.Some? {
          match next.value
          case '+' => pos := pos + 1; return Ok(Inc);
          case '=' => pos := pos + 1; return Ok(AddAssign);
          case _ => return Ok(Add);
        } else {
          return Ok(Add);
        }
      case '-' =>
        var next := Scry(1);
        if next.Some? {
          match next.value
          case '-' => pos := pos + 1; return Ok(Dec);
          case '=' => pos := pos + 1; return Ok(SubAssign);
          case _ => return Ok(Sub);
        } else {
          return Ok(Sub);
        }
      case '/' =>
        var next := Scry(1);
        if next.Some? {
          match next.value
          case '/' => pos := pos + 1; return Ok(IntDiv);
          case '=' => pos := pos + 1; return Ok(DivAssign);
          case _ => return Ok(Div);
        } else {
          return Ok(Div);
        }
      case '*' =>
        var next := Scry(1);
        if next.Some? {
          match next.value
          case '*' => pos := pos + 1; return Ok(Pow);
          case '=' => pos := pos + 1; return Ok(MultAssign);
          case _ => return Ok(Mult);
        } else {
          return Ok(Mult);
        }
      case '%' =>
        var next := Scry(1);
        if next.Some? && next.value == '=' {
          pos := pos + 1;
          return Ok(ModAssign);
        } else {
          return Ok(Mod);
        }
      case '>' =>
        var next := Scry(1);
        if next.Some? && next.value == '=' {
          pos := pos + 1;
          return Ok(GreaterEqual);
        } else {
          return Ok(Greater);
        }
      case '<' =>
        var next := Scry(1);
        if next.Some? && next.value == '=' {
          pos := pos + 1;
          return Ok(LessEqual);
        } else {
          return Ok(LessThan);
        }
      case '=' =>
        var next := Scry(1);
        if next.Some? && next.value == '=' {
          pos := pos + 1;
          return Ok(Equal);
        } else {
          return Ok(Assign);
        }
      case '!' =>
        var next := Scry(1);
        if next.Some? && next.value == '=' {
          pos := pos + 1;
          return Ok(NotEqual);
        } else {
          return Ok(Not);
        }
      case '&' =>
        var next := Scry(1);
        if next.Some? && next.value == '&' {
          pos := pos + 1;
          return Ok(And);
        } else {
          return Ok(BitAnd);
        }
      case '|' =>
        var next := Scry(1);
        if next.Some? && next.value == '|' {
          pos := pos + 1;
          return Ok(Or);
        } else {
          return Ok(BitOr);
        }
      case _ =>
        // Every operator lead has an arm above.
        assert false;
    }

    /**
     * The number arm: collects digits and points while reading the next
     * character unchecked, then parses the text as f64 if a point was seen
     * and as i64 otherwise. Agrees with `NumberStep`.
     */
    method ScanNumber() returns (r: Result<Token>)
      requires pos < |contents| && IsDigit(contents[pos])
      modifies this`pos
      ensures r.Ok? <==> NumberStep(old(Remaining())).Ok?
      ensures r.Ok? ==> r.value == NumberStep(old(Remaining())).value.token
      ensures r.Ok? ==> pos + 1 == old(pos) + NumberStep(old(Remaining())).value.length
      ensures r.Err? ==> r.failure == NumberStep(old(Remaining())).failure
    {
      ghost var start, rest := pos, contents[pos..];
      var c := contents[pos];
      var buffer: seq<char> := [];
      var isFloat := false;
      while (IsDigit(c) || c == '.') && !IsFileEnd()
        invariant start <= pos < |contents| && c == contents[pos] == rest[pos - start]
        invariant buffer == rest[..pos - start]
        invariant forall i :: 0 <= i < pos - start ==> Continues(NumberRun, rest[i])
        invariant isFloat <==> '.' in buffer || c == '.'
        decreases |contents| - pos
      {
        buffer := buffer + [c];
        pos := pos + 1;
        if pos >= |contents| {
          RunLengthIs(NumberRun, rest, |rest|);
          return Err(OutOfBounds);
        }
        c := contents[pos];
        if c == '.' {
          isFloat := true;
        }
      }
      RunLengthIs(NumberRun, rest, pos - start);
      pos := pos - 1;
      // The source trims the text first; a run of digits and points has no
      // white space to trim.
      if isFloat {
        if ParsesAsF64(buffer) {
          return Ok(Float(Some(buffer)));
        } else {
          return Err(MalformedFloat);
        }
      } else {
        PointFreeRun(buffer);
        match ParseI64(buffer)
        case Some(v) => return Ok(Int(Some(v)));
        case None => return Err(IntOutOfRange);
      }
    }

    /**
     * The identifier arm: collects alphanumerics, `_` and `-` while reading
     * the next character unchecked, then looks the word up among the
     * reserved words. Agrees with `WordStep`.
     */
    method ScanWord() returns (r: Result<Token>)
      requires pos < |contents| && IsAlphabetic(contents[pos])
      modifies this`pos
      ensures r.Ok? <==> WordStep(old(Remaining())).Ok?
      ensures r.Ok? ==> r.value == WordStep(old(Remaining())).value.token
      ensures r.Ok? ==> pos + 1 == old(pos) + WordStep(old(Remaining())).value.length
      ensures r.Err? ==> r.failure == WordStep(old(Remaining())).failure
    {
      ghost var start, rest := pos, contents[pos..];
      var c := contents[pos];
      var buffer: seq<char> := [];
      while IsAlphanumeric(c) || c == '_' || c == '-'
        invariant start <= pos < |contents| && c == contents[pos] == rest[pos - start]
        invariant buffer == rest[..pos - start]
        invariant forall i :: 0 <= i < pos - start ==> Continues(WordRun, rest[i])
        decreases |contents| - pos
      {
        buffer := buffer + [c];
        pos := pos + 1;
        if pos >= |contents| {
          RunLengthIs(WordRun, rest, |rest|);
          return Err(OutOfBounds);
        }
        c := contents[pos];
      }
      RunLengthIs(WordRun, rest, pos - start);
      pos := pos - 1;
      // The source trims the word first; word characters are never white space.
      match Keyword(buffer)
      case Some(k) => return Ok(k);
      case None => return Ok(Identifier(buffer));
    }
  }

  /** A fresh scanner run over `chars`, as the program's entry point uses it. */
  method ScanAll(chars: seq<char>) returns (r: Result<seq<Token>>)
    ensures r == Lex(chars)
  {
    var lexer := new Lexer(chars);
    r := lexer.Scan();
    PrefixedNothing(Lex(chars));
  }
}
