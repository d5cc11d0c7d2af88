// What one call of `get_next_token` and the whole `scan` loop compute, stated
// as functions of the input that remains from the cursor on. The scanner's
// methods are proved to agree with these.

module LexSpec {
  import opened Options
  import opened Tokens
  import opened Chars
  import opened Numbers

  /** The ways the source's scanner panics. */
  datatype Failure =
    | OutOfBounds     // `unwrap` on a read at or past the end of the input
    | IntOutOfRange   // `unwrap` on a failed `parse::<i64>`
    | MalformedFloat  // `unwrap` on a failed `parse::<f64>`

  datatype Result<+T> = Ok(value: T) | Err(failure: Failure)

  /** One step: the token produced and how many characters it consumed. */
  datatype Step = Step(token: Token, length: nat)

  /**
   * Characters that are a token on their own: the brackets, the colon and
   * `¬`. None of them starts any other arm of the dispatch.
   */
  function SingleCharToken(c: char): (r: Option<Token>)
    ensures r.Some? ==> r.value != NoToken && ShortForm(c).None?
    ensures r.Some? ==> c != '#' && c != '"' && !IsDigit(c) && !IsAlphabetic(c)
  {
    match c
    case ':' => Some(Colon)
    case '(' => Some(LeftParen)
    case ')' => Some(RightParen)
    case '[' => Some(LeftSquare)
    case ']' => Some(RightSquare)
    case '{' => Some(LeftCurly)
    case '}' => Some(RightCurly)
    case '¬' => Some(BitNot)
    case _ => None
  }

  /**
   * The one-character operator each of the eleven operator leads stands
   * for alone. No lead starts any other arm of the dispatch.
   */
  function ShortForm(lead: char): (r: Option<Token>)
    ensures r.Some? ==> r.value != NoToken
    ensures r.Some? ==> lead != '#' && lead != '"' && !IsDigit(lead) && !IsAlphabetic(lead)
  {
    match lead
    case '+' => Some(Add)
    case '-' => Some(Sub)
    case '/' => Some(Div)
    case '*' => Some(Mult)
    case '%' => Some(Mod)
    case '>' => Some(Greater)
    case '<' => Some(LessThan)
    case '=' => Some(Assign)
    case '!' => Some(Not)
    case '&' => Some(BitAnd)
    case '|' => Some(BitOr)
    case _ => None
  }

  /**
   * The fifteen two-character operators, by lead and second character:
   * every lead but `&` and `|` followed by `=`, and `+`, `-`, `/`, `*`, `&`
   * and `|` doubled. Each is a different token from its lead's short form.
   */
  function LongForm(lead: char, second: char): (r: Option<Token>)
    ensures r.Some? ==> ShortForm(lead).Some? && (second == '=' || second == lead)
    ensures r.Some? ==> r.value != NoToken && r.value != ShortForm(lead).value
  {
    match (lead, second)
    case ('+', '+') => Some(Inc)
    case ('+', '=') => Some(AddAssign)
    case ('-', '-') => Some(Dec)
    case ('-', '=') => Some(SubAssign)
    case ('/', '/') => Some(IntDiv)
    case ('/', '=') => Some(DivAssign)
    case ('*', '*') => Some(Pow)
    case ('*', '=') => Some(MultAssign)
    case ('%', '=') => Some(ModAssign)
    case ('>', '=') => Some(GreaterEqual)
    case ('<', '=') => Some(LessEqual)
    case ('=', '=') => Some(Equal)
    case ('!', '=') => Some(NotEqual)
    case ('&', '&') => Some(And)
    case ('|', '|') => Some(Or)
    case _ => None
  }

  /** The single-character tokens are exactly the brackets, the colon and `¬`. */
  lemma SingleCharacters(c: char)
    ensures SingleCharToken(c).Some? <==> c in ":()[]{}¬"
  {
  }

  /** The operator leads are exactly these eleven characters. */
  lemma OperatorLeads(lead: char)
    ensures ShortForm(lead).Some? <==> lead in "+-/*%><=!&|"
  {
  }

  /**
   * The long operators are exactly a lead other than `&` and `|` followed
   * by `=`, and `+`, `-`, `/`, `*`, `&` or `|` doubled.
   */
  lemma LongForms(lead: char, second: char)
    ensures LongForm(lead, second).Some?
        <==> ShortForm(lead).Some?
             && ((second == '=' && lead != '&' && lead != '|') || (second == lead && lead in "+-/*&|"))
  {
  }

  /** The reserved words: keywords, boolean literals and bare type names. */
  const Keywords: map<string, Token> := map[
    "true" := Bool(Some(true)),
    "false" := Bool(Some(false)),
    "if" := If,
    "else" := Else,
    "elif" := ElseIf,
    "fn" := Function,
    "while" := While,
    "for" := For,
    "var" := Var,
    "const" := Const,
    "print" := Print,
    "int" := Int(None),
    "float" := Float(None),
    "string" := String(None),
    "bool" := Bool(None)
  ]

  /** The reserved token of a word, if it has one: never an identifier and never the `None` marker. */
  function Keyword(word: string): (r: Option<Token>)
    ensures r.Some? <==> word in Keywords
    ensures r.Some? ==> !r.value.Identifier? && r.value != NoToken
  {
    if word in Keywords then Some(Keywords[word]) else None
  }

  /** A word is its reserved token if it has one, and an identifier otherwise. */
  function ClassifyWord(word: string): (t: Token)
    ensures t.Identifier? <==> Keyword(word).None?
    ensures t.Identifier? ==> t.name == word
    ensures Keyword(word).Some? ==> t == Keyword(word).value
    ensures t != NoToken
  {
    match Keyword(word)
    case Some(k) => k
    case None => Identifier(word)
  }

  /** The token for the text of a number run, or the parse failure. */
  function NumberToken(run: seq<char>): (r: Result<Token>)
    requires forall i :: 0 <= i < |run| ==> Continues(NumberRun, run[i])
    requires |run| > 0 && IsDigit(run[0])
    ensures '.' !in run <==> AllDigits(run)
    ensures r.Ok? && '.' in run ==> r.value == Float(Some(run))
    ensures r.Ok? && AllDigits(run) ==> r.value.Int? && r.value.intValue.Some?
                                        && r.value.intValue.value as int == DecimalValue(run)
    ensures r.Err? <==> ('.' in run && DotCount(run) > 1) || (AllDigits(run) && DecimalValue(run) > I64Max)
    ensures r.Err? ==> r.failure == (if '.' in run then MalformedFloat else IntOutOfRange)
  {
    PointFreeRun(run);
    if '.' in run then
      if ParsesAsF64(run) then Ok(Float(Some(run))) else Err(MalformedFloat)
    else
      match ParseI64(run)
      case Some(v) => Ok(Int(Some(v)))
      case None => Err(IntOutOfRange)
  }

  /**
   * A number: the run of digits and points at the front of `s`. A run that
   * reaches the end of the input fails, because the source reads the
   * character after it before testing for the end.
   */
  function NumberStep(s: seq<char>): (r: Result<Step>)
    requires |s| > 0 && IsDigit(s[0])
    ensures (forall i :: 0 <= i < |s| ==> Continues(NumberRun, s[i])) ==> r == Err(OutOfBounds)
    ensures r.Ok? ==> 1 <= r.value.length < |s| && !Continues(NumberRun, s[r.value.length])
    ensures r.Ok? ==> r.value.token.Int? || r.value.token.Float?
  {
    var n := RunLength(NumberRun, s);
    if n == |s| then Err(OutOfBounds)
    else
      match NumberToken(s[..n])
      case Ok(t) => Ok(Step(t, n))
      case Err(f) => Err(f)
  }

  /** A word: the run of word characters at the front of `s`, failing like a number run at the end. */
  function WordStep(s: seq<char>): (r: Result<Step>)
    requires |s| > 0 && IsAlphabetic(s[0])
    ensures r.Err? <==> forall i :: 0 <= i < |s| ==> Continues(WordRun, s[i])
    ensures r.Err? ==> r.failure == OutOfBounds
    ensures r.Ok? ==> 1 <= r.value.length < |s| && !Continues(WordRun, s[r.value.length])
    ensures r.Ok? ==> r.value.token == ClassifyWord(s[..r.value.length])
  {
    var n := RunLength(WordRun, s);
    if n == |s| then Err(OutOfBounds) else Ok(Step(ClassifyWord(s[..n]), n))
  }

  /**
   * An operator: the long form when the next character completes one,
   * otherwise (also when there is no next character) the short form.
   */
  function OperatorStep(s: seq<char>): (r: Result<Step>)
    requires |s| > 0 && ShortForm(s[0]).Some?
    ensures r.Ok? && r.value.token != NoToken
    ensures r.value.length == 2 <==> |s| > 1 && LongForm(s[0], s[1]).Some?
    ensures r.value.length == 1 <==> r.value.token == ShortForm(s[0]).value
  {
    if |s| > 1 && LongForm(s[0], s[1]).Some? then Ok(Step(LongForm(s[0], s[1]).value, 2))
    else Ok(Step(ShortForm(s[0]).value, 1))
  }

  /**
   * One call of `get_next_token` on the input `s` that remains from the
   * cursor on. A successful step consumes at least one character and never
   * more than remain; only number runs, word runs and long operators
   * consume more than one.
   */
  function NextToken(s: seq<char>): (r: Result<Step>)
    ensures r.Ok? ==> 1 <= r.value.length <= |s|
    ensures r.Ok? && r.value.length > 1 ==> IsDigit(s[0]) || IsAlphabetic(s[0]) || ShortForm(s[0]).Some?
    ensures |s| > 0 && s[0] == '#' ==> r == Err(OutOfBounds)
    ensures s == [] ==> r == Err(OutOfBounds)
  {
    if s == [] then Err(OutOfBounds)
    else
      var c := s[0];
      if c == '#' then Err(OutOfBounds)
      else if SingleCharToken(c).Some? then Ok(Step(SingleCharToken(c).value, 1))
      else if c == '"' then Ok(Step(String(Some("")), 1))
      else if IsDigit(c) then NumberStep(s)
      else if ShortForm(c).Some? then OperatorStep(s)
      else if IsAlphabetic(c) then WordStep(s)
      else Ok(Step(NoToken, 1))
  }

  /** Puts a step's token in front of the tokens after it, dropping the `NoToken` marker. */
  function Prepend(t: Token, rest: Result<seq<Token>>): Result<seq<Token>> {
    match rest
    case Ok(ts) => Ok(if t == NoToken then ts else [t] + ts)
    case Err(f) => Err(f)
  }

  /** Puts already emitted tokens in front of a result. */
  function Prefixed(done: seq<Token>, rest: Result<seq<Token>>): Result<seq<Token>> {
    match rest
    case Ok(ts) => Ok(done + ts)
    case Err(f) => Err(f)
  }

  /**
   * The `scan` loop over the input `s` that remains: one step after
   * another, each starting just after what the previous one consumed, until
   * the input is used up or a step fails. It never emits the `NoToken`
   * marker and emits at most one token per character.
   */
  function Lex(s: seq<char>): (r: Result<seq<Token>>)
    ensures r.Ok? ==> NoToken !in r.value
    ensures r.Ok? ==> |r.value| <= |s|
    decreases |s|
  {
    if s == [] then Ok([])
    else
      match NextToken(s)
      case Err(f) => Err(f)
      case Ok(step) => Prepend(step.token, Lex(s[step.length..]))
  }

  /** One turn of the `scan` loop: a successful step, then the input after it. */
  lemma LexUnfold(s: seq<char>)
    requires NextToken(s).Ok?
    ensures Lex(s) == Prepend(NextToken(s).value.token, Lex(s[NextToken(s).value.length..]))
  {
  }

  /** Emitting a step's token moves it from the result to the tokens already emitted. */
  lemma PrefixedPrepend(done: seq<Token>, t: Token, rest: Result<seq<Token>>)
    ensures Prefixed(done, Prepend(t, rest)) == Prefixed(done + (if t == NoToken then [] else [t]), rest)
  {
    match rest
    case Ok(ts) =>
      if t != NoToken {
        assert done + ([t] + ts) == (done + [t]) + ts;
      } else {
        assert done + [] == done;
      }
    case Err(_) =>
  }

  /** Nothing emitted yet leaves a result as it is. */
  lemma PrefixedNothing(rest: Result<seq<Token>>)
    ensures Prefixed([], rest) == rest
  {
    match rest
    case Ok(ts) => assert [] + ts == ts;
    case Err(_) =>
  }
}
